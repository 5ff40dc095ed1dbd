/** `claimPaths` and `releaseClaim`, one file operation at a time. */
module ClaimProtocol {
  import opened Text
  import opened Paths
  import opened PathSets
  import opened Records
  import opened Directory

  // --- releasing a claim -----------------------------------------------------------------

  datatype Refused =
    | IncompleteOwner | NoClaim | AlreadyReleased | NeedsReason | NotHolder
    | HoldsNothing(decision: Decision) | BothTaken

  datatype ReleasePc =
    | Enter
    | ReadAttempt
    | ReadClaimFile
    | CheckFirst
    | CheckLater
    | DecideAbandoned(authority: Authority)
    | ReadDecided(authority: Authority)
    | PublishFirst(authority: Authority)
    | ReadFirstTaken(authority: Authority)
    | PublishLater(authority: Authority)
    | ReadLaterTaken
    | Ended(release: Release)
    | Threw(why: Refused)

  /** `claim` and `ordered` are what the call has read: the record, and whether it was an attempt. */
  datatype ReleaseCall = ReleaseCall(claimId: Id, by_: Owner, note: string, claim: Claim, ordered: bool, pc: ReleasePc)

  function ReleaseRecord(r: ReleaseCall, authority: Authority): Release {
    Release(r.claimId, r.by_, authority, r.note)
  }

  /** Who is releasing: the holder, or the integrator with a reason; anyone else is refused. */
  function Authorized(r: ReleaseCall): Result<Authority, Refused> {
    if SameOwner(r.claim.owner, r.by_) then Ok(Holder)
    else if r.by_.role == INTEGRATOR then
      if NonEmpty(r.note) then Ok(Integrator) else Err(NeedsReason)
    else Err(NotHolder)
  }

  /** What the call's next file operation publishes, if it publishes. */
  function ReleaseWrite(r: ReleaseCall): Write {
    match r.pc
    case DecideAbandoned(_) => PutDecision(r.claimId, Abandoned)
    case PublishFirst(authority) => PutFirstRelease(ReleaseRecord(r, authority))
    case PublishLater(authority) => PutLaterRelease(ReleaseRecord(r, authority))
    case _ => Nothing
  }

  /** Where the call stands after it, from what that operation saw. */
  function ReleaseNext(d: Dir, r: ReleaseCall): ReleaseCall {
    match r.pc
    case Enter =>
      r.(pc := if Complete(r.by_) then ReadAttempt else Threw(IncompleteOwner))
    case ReadAttempt =>
      if r.claimId in d.attempts then r.(claim := d.attempts[r.claimId], ordered := true, pc := CheckFirst)
      else r.(pc := ReadClaimFile)
    case ReadClaimFile =>
      if r.claimId in d.claimFiles then r.(claim := d.claimFiles[r.claimId], ordered := false, pc := CheckFirst)
      else r.(pc := Threw(NoClaim))
    case CheckFirst =>
      r.(pc := if EndedFirst(d, r.claim) then Threw(AlreadyReleased) else CheckLater)
    case CheckLater =>
      if EndedLater(d, r.claim) then r.(pc := Threw(AlreadyReleased))
      else (match Authorized(r)
            case Err(why) => r.(pc := Threw(why))
            case Ok(authority) => r.(pc := if r.ordered then DecideAbandoned(authority) else PublishFirst(authority)))
    case DecideAbandoned(authority) =>
      r.(pc := if r.claimId in d.decisions then ReadDecided(authority) else PublishFirst(authority))
    case ReadDecided(authority) =>
      if r.claimId in d.decisions && d.decisions[r.claimId] != Won
      then r.(pc := Threw(HoldsNothing(d.decisions[r.claimId])))
      else r.(pc := PublishFirst(authority))
    case PublishFirst(authority) =>
      r.(pc := if r.claimId in d.firstReleases then ReadFirstTaken(authority) else Ended(ReleaseRecord(r, authority)))
    case ReadFirstTaken(authority) =>
      r.(pc := if EndedFirst(d, r.claim) then Threw(AlreadyReleased) else PublishLater(authority))
    case PublishLater(authority) =>
      r.(pc := if r.claimId in d.laterReleases then ReadLaterTaken else Ended(ReleaseRecord(r, authority)))
    case ReadLaterTaken =>
      r.(pc := Threw(if EndedLater(d, r.claim) then AlreadyReleased else BothTaken))
    case Ended(_) => r
    case Threw(_) => r
  }

  // --- claiming paths ----------------------------------------------------------------------

  datatype ClaimInput = ClaimInput(owner: Owner, node: string, baseSha: string, paths: seq<string>, handoffFrom: Option<Id>)

  /** Why an attempt cannot win. */
  datatype Block = HeldBy(claim: Claim) | Undecided(claim: Claim) | MissingEntry(seqNo: nat)

  datatype ClaimResult =
    | Claimed(claim: Claim)
    | InvalidInput
    | HandoffInvalid
    | IntegratorOwned
    | Held(block: Block)
    | EndedBefore(decision: Decision)
    | HandoffSpent(user: Option<Id>)
    | IdTaken
    | GiveBackThrew(why: Refused)

  /** Where `firstBlocking` stands: the earlier tool's claims, the order below `seqNo`, and those claims again. */
  datatype SearchPc =
    | ListEarlier(last: bool)
    | NextEarlier(last: bool, todo: seq<Id>, found: seq<Claim>)
    | EarlierFirst(last: bool, claim: Claim, todo: seq<Id>, found: seq<Claim>)
    | EarlierLater(last: bool, claim: Claim, todo: seq<Id>, found: seq<Claim>)
    | ReadEntry(at: nat)
    | ReadDecision(at: nat, entry: Claim)
    | ReadFirst(at: nat, entry: Claim)
    | ReadLater(at: nat, entry: Claim)
    | Blocked(block: Block)
    | Clear

  datatype ClaimPc =
    | Begin
    | ReadHandoff(handoffId: Id)
    | ReadHandoffUse(handoff: Handoff)
    | PublishAttempt
    | ListOrder
    | LinkOrder(next: nat)
    | Search(search: SearchPc)
    | DecideLost(block: Block)
    | DecideWon
    | ReadOwnDecision
    | PublishUse
    | ReadUse
    | GiveBack(user: Option<Id>, release: ReleaseCall)
    | PublishClaimFile
    | Done(result: ClaimResult)

  /** `mine` once this call has published the attempt; `seqNo` once it is linked. */
  datatype ClaimCall = ClaimCall(
    input: ClaimInput, id: Id, scope: seq<CanonicalPath>, handoff: Option<Handoff>, mine: bool, seqNo: nat, pc: ClaimPc)

  /** What the host decides: whether a wait has run out, and the order a listing comes in. */
  datatype Choice = Choice(timeout: bool, names: seq<Id>)

  function ClaimOf(c: ClaimCall): (claim: Claim)
    ensures claim.id == c.id
  {
    Claim(c.id, c.input.node, c.input.owner, Spellings(c.scope), c.input.baseSha,
          if c.handoff.Some? then Some(c.handoff.value.id) else None)
  }

  predicate Unescaped(ch: char) {
    'a' <= ch <= 'z' || 'A' <= ch <= 'Z' || '0' <= ch <= '9' || ch in "-_.!~*'()"
  }

  /** Length of the URI-encoded spelling with the lock suffix. */
  function LockNameLength(path: string): nat {
    if path == "" then 5 else (if Unescaped(path[0]) then 1 else 3) + LockNameLength(path[1..])
  }

  const MAX_FILE_NAME: nat := 255

  /** Some path encodes to a lock name longer than a file name may be. */
  predicate Unlockable(scope: seq<CanonicalPath>) {
    exists i :: 0 <= i < |scope| && LockNameLength(scope[i].path) > MAX_FILE_NAME
  }

  predicate AnyHot(scope: seq<CanonicalPath>) {
    exists i :: 0 <= i < |scope| && IsHot(scope[i].path)
  }

  function Prepare(c: ClaimCall): ClaimCall {
    var reduced := CanonicalSet(c.input.paths);
    if !Complete(c.input.owner) || !NonEmpty(c.input.node) || !NonEmpty(c.input.baseSha)
       || reduced.Err? || reduced.value == []
       || Unlockable(reduced.value)
    then c.(pc := Done(InvalidInput))
    else
      var prepared := c.(scope := reduced.value);
      if c.input.handoffFrom.Some? then prepared.(pc := ReadHandoff(c.input.handoffFrom.value))
      else CheckHot(prepared)
  }

  function CheckHot(c: ClaimCall): ClaimCall {
    if AnyHot(c.scope) && c.input.owner.role != INTEGRATOR && c.handoff.None?
    then c.(pc := Done(IntegratorOwned))
    else c.(pc := PublishAttempt)
  }

  function FirstOverlapping(found: seq<Claim>, wanted: seq<string>): (r: Option<Claim>)
    ensures r.None? <==> forall claim :: claim in found ==> !OverlapsAny(RecordedKeys(claim.paths), wanted)
  {
    if found == [] then None
    else if OverlapsAny(RecordedKeys(found[0].paths), wanted) then Some(found[0])
    else FirstOverlapping(found[1..], wanted)
  }

  function EarlierVerdict(wanted: seq<string>, last: bool, found: seq<Claim>): SearchPc {
    match FirstOverlapping(found, wanted)
    case Some(claim) => Blocked(HeldBy(claim))
    case None => if last then Clear else ReadEntry(0)
  }

  /** The state after one read; `Blocked` carries the reason found and `Clear` says there is none. */
  function SearchNext(d: Dir, seqNo: nat, wanted: seq<string>, s: SearchPc, choice: Choice): SearchPc {
    match s
    case ListEarlier(last) => NextEarlier(last, choice.names, [])
    case NextEarlier(last, todo, found) =>
      if todo == [] then EarlierVerdict(wanted, last, found)
      else if todo[0] in d.attempts || todo[0] !in d.claimFiles then NextEarlier(last, todo[1..], found)
      else EarlierFirst(last, d.claimFiles[todo[0]], todo[1..], found)
    case EarlierFirst(last, claim, todo, found) =>
      if EndedFirst(d, claim) then NextEarlier(last, todo, found) else EarlierLater(last, claim, todo, found)
    case EarlierLater(last, claim, todo, found) =>
      NextEarlier(last, todo, if EndedLater(d, claim) then found else found + [claim])
    case ReadEntry(at) =>
      if at >= seqNo then ListEarlier(true)
      else if at !in d.order then Blocked(MissingEntry(at))
      else if OverlapsAny(RecordedKeys(d.order[at].paths), wanted) then ReadDecision(at, d.order[at])
      else ReadEntry(at + 1)
    case ReadDecision(at, entry) =>
      if entry.id in d.decisions then
        if d.decisions[entry.id] == Won then ReadFirst(at, entry) else ReadEntry(at + 1)
      else if choice.timeout then Blocked(Undecided(entry)) else s
    case ReadFirst(at, entry) =>
      if EndedFirst(d, entry) then ReadEntry(at + 1) else ReadLater(at, entry)
    case ReadLater(at, entry) =>
      if EndedLater(d, entry) then ReadEntry(at + 1) else Blocked(HeldBy(entry))
    case Blocked(_) => s
    case Clear => s
  }

  /** What the caller does with where the search stands. */
  function AfterSearch(s: SearchPc): ClaimPc {
    match s
    case Blocked(block) => DecideLost(block)
    case Clear => DecideWon
    case _ => Search(s)
  }

  function AfterWinning(c: ClaimCall): ClaimPc {
    if c.handoff.Some? then PublishUse else PublishClaimFile
  }

  const GIVE_BACK_NOTE: string := "This attempt won after that, so it gave the paths back."

  function GiveBackCall(c: ClaimCall): ReleaseCall {
    ReleaseCall(c.id, c.input.owner, GIVE_BACK_NOTE, ClaimOf(c), false, Enter)
  }

  function ClaimWrite(c: ClaimCall): Write {
    match c.pc
    case PublishAttempt => PutAttempt(ClaimOf(c))
    case LinkOrder(next) => PutOrder(next, ClaimOf(c))
    case DecideLost(_) => PutDecision(c.id, Lost)
    case DecideWon => PutDecision(c.id, Won)
    case PublishUse => if c.handoff.Some? then PutUse(c.handoff.value.id, c.id) else Nothing
    case GiveBack(_, release) => ReleaseWrite(release)
    case PublishClaimFile => PutClaimFile(ClaimOf(c))
    case _ => Nothing
  }

  function ClaimNext(d: Dir, c: ClaimCall, choice: Choice): ClaimCall {
    match c.pc
    case Begin => Prepare(c)
    case ReadHandoff(handoffId) =>
      if handoffId in d.handoffs
         && Authorizes(d.handoffs[handoffId], handoffId, c.input.owner, c.input.node, c.input.baseSha, c.scope)
      then c.(pc := ReadHandoffUse(d.handoffs[handoffId]))
      else c.(pc := Done(HandoffInvalid))
    case ReadHandoffUse(handoff) =>
      if handoff.id in d.uses then c.(pc := Done(HandoffInvalid)) else CheckHot(c.(handoff := Some(handoff)))
    case PublishAttempt =>
      if c.id in d.attempts then c.(pc := Done(IdTaken)) else c.(mine := true, pc := ListOrder)
    case ListOrder => c.(pc := LinkOrder(|d.order|))
    case LinkOrder(next) =>
      if next in d.order then c.(pc := LinkOrder(next + 1)) else c.(seqNo := next, pc := Search(ListEarlier(false)))
    case Search(search) => c.(pc := AfterSearch(SearchNext(d, c.seqNo, Keys(c.scope), search, choice)))
    case DecideLost(block) => c.(pc := Done(Held(block)))
    case DecideWon =>
      c.(pc := if c.id in d.decisions then ReadOwnDecision else AfterWinning(c))
    case ReadOwnDecision =>
      if c.id in d.decisions && d.decisions[c.id] != Won then c.(pc := Done(EndedBefore(d.decisions[c.id])))
      else c.(pc := AfterWinning(c))
    case PublishUse =>
      c.(pc := if c.handoff.Some? && c.handoff.value.id in d.uses then ReadUse else PublishClaimFile)
    case ReadUse =>
      c.(pc := GiveBack(
        if c.handoff.Some? && c.handoff.value.id in d.uses then Some(d.uses[c.handoff.value.id]) else None,
        GiveBackCall(c)))
    case GiveBack(user, release) =>
      c.(pc := match release.pc
               case Ended(_) => Done(HandoffSpent(user))
               case Threw(why) => Done(GiveBackThrew(why))
               case _ => GiveBack(user, ReleaseNext(d, release)))
    case PublishClaimFile => c.(pc := Done(Claimed(ClaimOf(c))))
    case Done(_) => c
  }

  // --- any number of calls, interleaved at every file operation --------------------------------

  type Pid = nat

  datatype Proc = Claiming(claimCall: ClaimCall) | Releasing(releaseCall: ReleaseCall)

  /** `earlier` is the fixed set of claims the earlier tool left, outside the order. */
  datatype State = State(dir: Dir, procs: map<Pid, Proc>, earlier: map<Id, Claim>)

  datatype Event =
    | Start(pid: Pid, proc: Proc)
    | Advance(pid: Pid, choice: Choice)
    | Crash(pid: Pid)
    | Foreign(later: bool, release: Release)
    | Offer(handoff: Handoff)

  predicate Known(d: Dir, id: Id) {
    id in d.attempts || id in d.claimFiles
  }

  function RecordOf(d: Dir, id: Id): Claim
    requires Known(d, id)
  {
    if id in d.attempts then d.attempts[id] else d.claimFiles[id]
  }

  /**
   * What may happen next. A new call mints an id no claim file bears. A foreign writer may occupy
   * either release name of a recorded claim with any record that has no authority over it, and
   * anyone may write any handoff record under a free name.
   */
  ghost predicate Enabled(s: State, event: Event) {
    match event
    case Start(pid, proc) =>
      && pid !in s.procs
      && (match proc
          case Claiming(c) => c.pc.Begin? && !c.mine && c.handoff.None? && c.id !in s.dir.claimFiles
          case Releasing(r) => r.pc.Enter?)
    case Advance(pid, choice) =>
      pid in s.procs && forall id :: id in choice.names <==> id in s.dir.claimFiles
    case Crash(pid) => pid in s.procs
    case Foreign(later, release) =>
      && Known(s.dir, release.claimId)
      && !Authoritative(release, RecordOf(s.dir, release.claimId))
    case Offer(_) => true
  }

  function Apply(s: State, event: Event): State {
    match event
    case Start(pid, proc) => s.(procs := s.procs[pid := proc])
    case Advance(pid, choice) =>
      if pid !in s.procs then s
      else (match s.procs[pid]
            case Claiming(c) =>
              s.(dir := Publish(s.dir, ClaimWrite(c)), procs := s.procs[pid := Claiming(ClaimNext(s.dir, c, choice))])
            case Releasing(r) =>
              s.(dir := Publish(s.dir, ReleaseWrite(r)), procs := s.procs[pid := Releasing(ReleaseNext(s.dir, r))]))
    case Crash(pid) => s.(procs := s.procs - {pid})
    case Foreign(later, release) =>
      s.(dir := Publish(s.dir, if later then PutLaterRelease(release) else PutFirstRelease(release)))
    case Offer(handoff) => s.(dir := Publish(s.dir, PutHandoff(handoff)))
  }

  ghost predicate ValidRun(s: State, events: seq<Event>)
    decreases |events|
  {
    events == [] || (Enabled(s, events[0]) && ValidRun(Apply(s, events[0]), events[1..]))
  }

  function Run(s: State, events: seq<Event>): State
    decreases |events|
  {
    if events == [] then s else Run(Apply(s, events[0]), events[1..])
  }

  lemma OneEvent(s: State, event: Event)
    requires Enabled(s, event)
    ensures ValidRun(s, [event]) && Run(s, [event]) == Apply(s, event)
  {
    hide Enabled, Apply;
    assert [event][1..] == [];
  }

  lemma RunCons(s: State, event: Event, events: seq<Event>)
    requires Enabled(s, event) && ValidRun(Apply(s, event), events)
    ensures ValidRun(s, [event] + events) && Run(s, [event] + events) == Run(Apply(s, event), events)
  {
    hide Enabled, Apply;
    assert ([event] + events)[1..] == events;
  }

  lemma {:induction false} RunConcat(s: State, a: seq<Event>, b: seq<Event>)
    requires ValidRun(s, a) && ValidRun(Run(s, a), b)
    ensures ValidRun(s, a + b) && Run(s, a + b) == Run(Run(s, a), b)
    decreases |a|
  {
    hide Enabled, Apply;
    if a == [] {
      assert a + b == b;
    } else {
      RunConcat(Apply(s, a[0]), a[1..], b);
      assert a + b == [a[0]] + (a[1..] + b);
      RunCons(s, a[0], a[1..] + b);
    }
  }

  /** An empty directory but for the earlier tool's claims, and no calls. */
  function Initial(earlier: map<Id, Claim>): State {
    State(Dir(map[], map[], map[], earlier, map[], map[], map[], map[]), map[], earlier)
  }

  ghost predicate EarlierClaims(earlier: map<Id, Claim>) {
    forall id :: id in earlier ==> earlier[id].id == id
  }

  /** Every state some run reaches. */
  ghost predicate Reachable(s: State) {
    exists earlier: map<Id, Claim>, events: seq<Event> ::
      EarlierClaims(earlier) && ValidRun(Initial(earlier), events) && s == Run(Initial(earlier), events)
  }

  lemma ReachesNext(s: State, event: Event)
    requires Reachable(s) && Enabled(s, event)
    ensures Reachable(Apply(s, event))
  {
    hide Enabled, Apply, ValidRun, Run;
    var earlier: map<Id, Claim>, events: seq<Event> :|
      EarlierClaims(earlier) && ValidRun(Initial(earlier), events) && s == Run(Initial(earlier), events);
    OneEvent(s, event);
    RunConcat(Initial(earlier), events, [event]);
  }

  lemma {:induction false} ReachesLater(s: State, events: seq<Event>)
    requires Reachable(s) && ValidRun(s, events)
    ensures Reachable(Run(s, events))
    decreases |events|
  {
    hide Enabled, Apply, Reachable;
    if events != [] {
      ReachesNext(s, events[0]);
      ReachesLater(Apply(s, events[0]), events[1..]);
    }
  }
}
