/** Safety of claims over every run: any number of calls, any interleaving, crashes at any step. */
module ClaimSafety {
  import opened Text
  import opened PathSets
  import opened Records
  import opened Directory
  import opened ClaimProtocol
  import opened ClaimInvariant
  import opened ClaimSteps

  ghost predicate ProcInv(d: Dir, earlier: map<Id, Claim>, proc: Proc) {
    match proc
    case Claiming(c) => ClaimInv(d, earlier, c)
    case Releasing(r) => ReleaseInv(d, r)
  }

  predicate Owns(proc: Proc, id: Id) {
    proc.Claiming? && proc.claimCall.mine && proc.claimCall.id == id
  }

  /** No two calls published the same attempt. */
  ghost predicate OneOwner(procs: map<Pid, Proc>) {
    forall p, q, id :: p in procs && q in procs && Owns(procs[p], id) && Owns(procs[q], id) ==> p == q
  }

  ghost predicate Inv(s: State) {
    && DirInv(s.dir, s.earlier)
    && (forall p :: p in s.procs ==> ProcInv(s.dir, s.earlier, s.procs[p]))
    && OneOwner(s.procs)
  }

  // --- one step ------------------------------------------------------------------------------

  lemma PublishKeepsRely(d: Dir, w: Write, id: Id)
    requires w.PutOrder? ==> w.claim.id != id
    requires w.PutDecision? ==> w.id != id || w.decision != Won
    ensures Rely(d, Publish(d, w), id)
  {
    hide Grows;
    PublishGrows(d, w);
    OrderGrows(d, w);
    if w.PutOrder? && w.at !in d.order && Linked(Publish(d, w), id) {
      var n :| n in Publish(d, w).order && Publish(d, w).order[n].id == id;
      assert n in d.order && d.order[n].id == id;
    }
  }

  lemma OrderGrows(d: Dir, w: Write)
    ensures |d.order| <= |Publish(d, w).order|
  {
    if w.PutOrder? && w.at !in d.order {
      assert |Publish(d, w).order| == |d.order| + 1;
    }
  }

  lemma ClaimWriteRely(d: Dir, earlier: map<Id, Claim>, c: ClaimCall, id: Id)
    requires ClaimInv(d, earlier, c) && (c.mine ==> id != c.id)
    ensures Rely(d, Publish(d, ClaimWrite(c)), id)
  {
    hide Rely, Base, SearchInv, ClaimOf, Released, InOrder, HasWon;
    PublishKeepsRely(d, ClaimWrite(c), id);
  }

  lemma ReleaseWriteRely(d: Dir, r: ReleaseCall, id: Id)
    ensures Rely(d, Publish(d, ReleaseWrite(r)), id)
  {
    hide Rely;
    PublishKeepsRely(d, ReleaseWrite(r), id);
  }

  lemma ProcStays(d: Dir, e: Dir, earlier: map<Id, Claim>, proc: Proc)
    requires DirInv(d, earlier) && Grows(d, e) && ProcInv(d, earlier, proc)
    requires proc.Claiming? && proc.claimCall.mine ==> Rely(d, e, proc.claimCall.id)
    ensures ProcInv(e, earlier, proc)
  {
    hide ClaimInv, ReleaseInv, Grows, Rely, OrderSound, RecordsSound, WinnersSound, UsesSound;
    match proc
    case Claiming(c) => ClaimStays(d, e, earlier, c);
    case Releasing(r) => ReleaseStays(d, e, r);
  }

  /** A write that concerns no attempt of another call leaves every call's knowledge true. */
  lemma ProcsStay(s: State, e: Dir, mover: Pid)
    requires Inv(s) && Grows(s.dir, e)
    requires forall p, id :: p in s.procs && p != mover && Owns(s.procs[p], id) ==> Rely(s.dir, e, id)
    ensures forall p :: p in s.procs && p != mover ==> ProcInv(e, s.earlier, s.procs[p])
  {
    hide ProcInv, DirInv, Grows, Rely;
    forall p | p in s.procs && p != mover ensures ProcInv(e, s.earlier, s.procs[p]) {
      ProcStays(s.dir, e, s.earlier, s.procs[p]);
    }
  }

  lemma ClaimAdvances(s: State, pid: Pid, choice: Choice)
    requires Inv(s) && Enabled(s, Advance(pid, choice)) && s.procs[pid].Claiming?
    ensures Inv(Apply(s, Advance(pid, choice)))
  {
    hide ProcInv, DirInv, Grows, Rely, ClaimNext, ClaimWrite, ClaimInv;
    var c := s.procs[pid].claimCall;
    var e := Publish(s.dir, ClaimWrite(c));
    ClaimIs(s, pid);
    ClaimStepKeeps(s.dir, s.earlier, c, choice);
    StepKeptIs(s.dir, s.earlier, c, choice);
    PublishGrows(s.dir, ClaimWrite(c));
    forall p, id | p in s.procs && p != pid && Owns(s.procs[p], id) ensures Rely(s.dir, e, id) {
      ClaimWriteRely(s.dir, s.earlier, c, id);
    }
    ProcsStay(s, e, pid);
    StillOneOwner(s, pid, choice);
    ProcIs(e, s.earlier, ClaimNext(s.dir, c, choice));
  }

  lemma ClaimIs(s: State, pid: Pid)
    requires Inv(s) && pid in s.procs && s.procs[pid].Claiming?
    ensures ClaimInv(s.dir, s.earlier, s.procs[pid].claimCall)
  {
    hide ClaimInv, DirInv;
  }

  lemma ProcIs(d: Dir, earlier: map<Id, Claim>, c: ClaimCall)
    requires ClaimInv(d, earlier, c)
    ensures ProcInv(d, earlier, Claiming(c))
  {
    hide ClaimInv;
  }

  lemma StepKeptIs(d: Dir, earlier: map<Id, Claim>, c: ClaimCall, choice: Choice)
    requires StepKept(d, earlier, c, choice)
    ensures DirInv(Publish(d, ClaimWrite(c)), earlier) && ClaimInv(Publish(d, ClaimWrite(c)), earlier, ClaimNext(d, c, choice))
  {
    hide DirInv, ClaimInv;
  }

  lemma OwnedIsAttempt(s: State, pid: Pid, id: Id)
    requires Inv(s) && pid in s.procs && Owns(s.procs[pid], id)
    ensures id in s.dir.attempts
  {
    hide DirInv, SearchInv, Base, ResultSound, GivingBack;
  }

  lemma NextOwner(d: Dir, c: ClaimCall, choice: Choice)
    ensures var n := ClaimNext(d, c, choice);
            n.id == c.id && (n.mine ==> c.mine || (c.pc.PublishAttempt? && c.id !in d.attempts))
  {
    hide SearchNext, AfterSearch, ReleaseNext, Authorizes, CanonicalSet, IsHot;
  }

  lemma StillOneOwner(s: State, pid: Pid, choice: Choice)
    requires Inv(s) && pid in s.procs && s.procs[pid].Claiming?
    ensures OneOwner(s.procs[pid := Claiming(ClaimNext(s.dir, s.procs[pid].claimCall, choice))])
  {
    hide ProcInv, DirInv, ClaimNext;
    var c := s.procs[pid].claimCall;
    var after := s.procs[pid := Claiming(ClaimNext(s.dir, c, choice))];
    NextOwner(s.dir, c, choice);
    forall p, q, id | p in after && q in after && Owns(after[p], id) && Owns(after[q], id) ensures p == q {
      if p in s.procs && Owns(s.procs[p], id) { OwnedIsAttempt(s, p, id); }
      if q in s.procs && Owns(s.procs[q], id) { OwnedIsAttempt(s, q, id); }
    }
  }

  lemma ReleaseAdvances(s: State, pid: Pid, choice: Choice)
    requires Inv(s) && Enabled(s, Advance(pid, choice)) && s.procs[pid].Releasing?
    ensures Inv(Apply(s, Advance(pid, choice)))
  {
    hide ProcInv, DirInv, Grows, Rely, ReleaseNext, ReleaseWrite, ReleaseInv, ReleaseKept, IdsSound, HasWon;
    var r := s.procs[pid].releaseCall;
    var e := Publish(s.dir, ReleaseWrite(r));
    ReleaseIs(s, pid);
    IdsAreSound(s.dir, s.earlier);
    ReleaseStepKeeps(s.dir, r);
    KeptIs(s.dir, r);
    QuietRelease(s.dir, r);
    DirKeptQuiet(s.dir, e, s.earlier);
    forall p, id | p in s.procs && p != pid && Owns(s.procs[p], id) ensures Rely(s.dir, e, id) {
      ReleaseWriteRely(s.dir, r, id);
    }
    ProcsStay(s, e, pid);
    ReleasingIs(e, s.earlier, ReleaseNext(s.dir, r));
  }

  lemma ReleaseIs(s: State, pid: Pid)
    requires Inv(s) && pid in s.procs && s.procs[pid].Releasing?
    ensures ReleaseInv(s.dir, s.procs[pid].releaseCall)
  {
    hide ReleaseInv, DirInv;
  }

  lemma ReleasingIs(d: Dir, earlier: map<Id, Claim>, r: ReleaseCall)
    requires ReleaseInv(d, r)
    ensures ProcInv(d, earlier, Releasing(r))
  {
    hide ReleaseInv;
  }

  /** A record written from outside the modelled calls. */
  lemma OutsideWrite(s: State, w: Write)
    requires Inv(s) && (w.PutFirstRelease? || w.PutLaterRelease? || w.PutHandoff?)
    ensures Inv(s.(dir := Publish(s.dir, w)))
  {
    hide ProcInv, DirInv, Grows, Rely, HasWon;
    var e := Publish(s.dir, w);
    PublishGrows(s.dir, w);
    OutsideIsQuiet(s.dir, w);
    DirKeptQuiet(s.dir, e, s.earlier);
    forall p, id | p in s.procs && Owns(s.procs[p], id) ensures Rely(s.dir, e, id) {
      PublishKeepsRely(s.dir, w, id);
    }
    forall p | p in s.procs ensures ProcInv(e, s.earlier, s.procs[p]) {
      ProcStays(s.dir, e, s.earlier, s.procs[p]);
    }
  }

  lemma OutsideIsQuiet(d: Dir, w: Write)
    requires w.PutFirstRelease? || w.PutLaterRelease? || w.PutHandoff?
    ensures var e := Publish(d, w);
            && e.attempts == d.attempts && e.order == d.order && e.claimFiles == d.claimFiles && e.uses == d.uses
            && (forall id :: HasWon(e, id) ==> HasWon(d, id))
  {
  }

  lemma CallStarts(s: State, pid: Pid, proc: Proc)
    requires Inv(s) && Enabled(s, Start(pid, proc))
    ensures Inv(Apply(s, Start(pid, proc)))
  {
    hide Dense, OrderSound, WinnersSound, UsesSound, Authorizes, CanonicalSet, Complete;
    assert proc.Claiming? ==> proc.claimCall.id !in s.earlier by { hide RecordedKeys; }
    assert ProcInv(s.dir, s.earlier, proc);
  }

  /** Every event of every run keeps the invariant. */
  lemma ApplyKeeps(s: State, event: Event)
    requires Inv(s) && Enabled(s, event)
    ensures Inv(Apply(s, event)) && Grows(s.dir, Apply(s, event).dir)
  {
    EventGrows(s, event);
    hide Inv, Grows, Enabled, Apply;
    match event
    case Start(pid, proc) => CallStarts(s, pid, proc);
    case Advance(pid, choice) => AdvanceKeeps(s, pid, choice);
    case Crash(pid) => CrashKeeps(s, pid);
    case Foreign(later, release) => ForeignKeeps(s, later, release);
    case Offer(handoff) => OfferKeeps(s, handoff);
  }

  lemma AdvanceKeeps(s: State, pid: Pid, choice: Choice)
    requires Inv(s) && Enabled(s, Advance(pid, choice))
    ensures Inv(Apply(s, Advance(pid, choice)))
  {
    hide Inv, Apply;
    match s.procs[pid]
    case Claiming(_) => ClaimAdvances(s, pid, choice);
    case Releasing(_) => ReleaseAdvances(s, pid, choice);
  }

  lemma CrashKeeps(s: State, pid: Pid)
    requires Inv(s)
    ensures Inv(Apply(s, Crash(pid)))
  {
    hide ProcInv, DirInv;
  }

  lemma ForeignKeeps(s: State, later: bool, release: Release)
    requires Inv(s)
    ensures Inv(Apply(s, Foreign(later, release)))
  {
    hide Inv, Publish;
    OutsideWrite(s, if later then PutLaterRelease(release) else PutFirstRelease(release));
  }

  lemma OfferKeeps(s: State, handoff: Handoff)
    requires Inv(s)
    ensures Inv(Apply(s, Offer(handoff)))
  {
    hide Inv, Publish;
    OutsideWrite(s, PutHandoff(handoff));
  }

  lemma EventGrows(s: State, event: Event)
    ensures Grows(s.dir, Apply(s, event).dir)
  {
    hide Grows, Publish, ClaimNext, ReleaseNext, ClaimWrite, ReleaseWrite;
    NothingGrows(s.dir);
    match event
    case Start(_, _) =>
    case Crash(_) =>
    case Advance(pid, choice) =>
      if pid in s.procs {
        match s.procs[pid]
        case Claiming(c) => PublishGrows(s.dir, ClaimWrite(c));
        case Releasing(r) => PublishGrows(s.dir, ReleaseWrite(r));
      }
    case Foreign(later, release) => PublishGrows(s.dir, if later then PutLaterRelease(release) else PutFirstRelease(release));
    case Offer(handoff) => PublishGrows(s.dir, PutHandoff(handoff));
  }

  lemma NothingGrows(d: Dir)
    ensures Grows(d, d)
  {
  }

  // --- every run -------------------------------------------------------------------------------

  lemma {:induction false} RunKeeps(s: State, events: seq<Event>)
    requires Inv(s) && ValidRun(s, events)
    ensures Inv(Run(s, events)) && Grows(s.dir, Run(s, events).dir) && Run(s, events).earlier == s.earlier
    decreases |events|
  {
    hide Inv, Enabled, Grows;
    if events == [] {
      NothingGrows(s.dir);
    } else {
      ApplyKeeps(s, events[0]);
      RunKeeps(Apply(s, events[0]), events[1..]);
      GrowsTransitive(s.dir, Apply(s, events[0]).dir, Run(s, events).dir);
      SameEarlier(s, events[0]);
    }
  }

  lemma SameEarlier(s: State, event: Event)
    ensures Apply(s, event).earlier == s.earlier
  {
    hide Publish, ClaimNext, ReleaseNext;
  }

  lemma InitialInv(earlier: map<Id, Claim>)
    requires EarlierClaims(earlier)
    ensures Inv(Initial(earlier))
  {
    hide RecordedKeys, Overlap, Released, Finished;
  }

  lemma ReachableInv(s: State)
    requires Reachable(s)
    ensures Inv(s)
  {
    hide Inv, ValidRun, Run, Initial;
    var earlier: map<Id, Claim>, events: seq<Event> :|
      EarlierClaims(earlier) && ValidRun(Initial(earlier), events) && s == Run(Initial(earlier), events);
    InitialInv(earlier);
    RunKeeps(Initial(earlier), events);
  }

  // --- the promises ------------------------------------------------------------------------------

  /**
   * Mutual exclusion. No path lies at or below paths of two claims that are both won and
   * unreleased, nor of one such claim and an unreleased claim of the earlier tool.
   */
  lemma MutualExclusion(s: State, a: Claim, b: Claim, key: string)
    requires Reachable(s)
    requires a.id in s.dir.attempts && s.dir.attempts[a.id] == a && Active(s.dir, a) && Covers(a, key)
    requires Covers(b, key) && b.id != a.id
    ensures b.id in s.dir.attempts && s.dir.attempts[b.id] == b ==> !Active(s.dir, b)
    ensures b.id in s.earlier && s.earlier[b.id] == b ==> Released(s.dir, b)
  {
    hide Covers, Overlap, RecordedKeys, Released, Inv;
    ReachableInv(s);
    SharedTerritoryOverlaps(a, b, key);
    OverlapSymmetric(a, b);
    if b.id in s.dir.attempts && s.dir.attempts[b.id] == b && Active(s.dir, b) {
      var m := SeqOf(s, a);
      var n := SeqOf(s, b);
      if m < n { WinnersYield(s, m, n); } else { WinnersYield(s, n, m); }
    }
    if b.id in s.earlier && s.earlier[b.id] == b {
      var m := SeqOf(s, a);
      WinnersYieldEarlier(s, m, b.id);
    }
  }

  lemma SeqOf(s: State, a: Claim) returns (n: nat)
    requires Inv(s) && a.id in s.dir.attempts && s.dir.attempts[a.id] == a && HasWon(s.dir, a.id)
    ensures n in s.dir.order && s.dir.order[n] == a
  {
    hide Scanned, EarlierClear, RecordedKeys, ProcInv;
    assert Linked(s.dir, a.id);
    n :| n in s.dir.order && s.dir.order[n].id == a.id;
  }

  /** A winner saw each earlier overlapping attempt lost, abandoned or released, and those facts are permanent. */
  lemma WinnersYield(s: State, m: nat, n: nat)
    requires Inv(s) && m in s.dir.order && n in s.dir.order && m < n
    requires HasWon(s.dir, s.dir.order[n].id) && Overlap(s.dir.order[m], s.dir.order[n])
    ensures Finished(s.dir, s.dir.order[m]) && !Active(s.dir, s.dir.order[m])
  {
    hide RecordedKeys, Released, ProcInv, Overlap;
    assert Scanned(s.dir, s.dir.order[n], n);
  }

  lemma WinnersYieldEarlier(s: State, n: nat, id: Id)
    requires Inv(s) && n in s.dir.order && HasWon(s.dir, s.dir.order[n].id)
    requires id in s.earlier && Overlap(s.earlier[id], s.dir.order[n])
    ensures Released(s.dir, s.earlier[id])
  {
    hide RecordedKeys, Released, ProcInv, Overlap, Scanned;
    assert EarlierClear(s.dir, s.earlier, s.dir.order[n]);
  }
}
