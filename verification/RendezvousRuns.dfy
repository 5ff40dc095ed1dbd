/** What the object's methods do is a run of the protocol, so every promise about runs is theirs. */
module RendezvousRuns {
  import opened Text
  import opened Records
  import opened Directory
  import opened ClaimProtocol
  import opened ClaimRecovery
  import opened Rendezvous

  ghost predicate Lists(names: seq<Id>, d: Dir) {
    forall id :: id in names <==> id in d.claimFiles
  }

  lemma OnlyClaimFilesAreListed(d: Dir, w: Write)
    ensures w.PutClaimFile? || Publish(d, w).claimFiles == d.claimFiles
  {
    hide Taken;
  }

  lemma WritesClaimFile(c: ClaimCall)
    ensures ClaimWrite(c).PutClaimFile? ==> c.pc.PublishClaimFile?
  {
    hide ClaimOf, ReleaseRecord;
    if c.pc.GiveBack? { ReleaseWritesNoClaimFile(c.pc.release); }
  }

  lemma ReleaseWritesNoClaimFile(r: ReleaseCall)
    ensures !ReleaseWrite(r).PutClaimFile?
  {
    hide ReleaseRecord;
  }

  /** Only a finished call has changed what a listing of the claim files shows. */
  lemma ListingStays(d: Dir, c: ClaimCall, choice: Choice)
    ensures Publish(d, ClaimWrite(c)).claimFiles == d.claimFiles || ClaimNext(d, c, choice).pc.Done?
  {
    hide Publish, ClaimWrite, Prepare, CheckHot, SearchNext, ReleaseNext, ClaimOf;
    OnlyClaimFilesAreListed(d, ClaimWrite(c));
    WritesClaimFile(c);
  }

  lemma {:induction false} ClaimReaches(s: State, pid: Pid, c: ClaimCall, choice: Choice, n: nat) returns (t: State)
    requires Reachable(s) && pid in s.procs && s.procs[pid] == Claiming(c) && Lists(choice.names, s.dir)
    ensures Reachable(t) && t.earlier == s.earlier && t.procs.Keys == s.procs.Keys
    ensures var (e, last) := ClaimRun(s.dir, c, choice, n); t.dir == e && t.procs[pid] == Claiming(last)
    ensures var (e, last) := ClaimRun(s.dir, c, choice, n); last.pc.Done? || Lists(choice.names, e)
    decreases n
  {
    hide Reachable, ClaimWrite, ClaimNext, Publish;
    if n == 0 { return s; }
    t := ClaimReaches(s, pid, c, choice, n - 1);
    var (e, last) := ClaimRun(s.dir, c, choice, n - 1);
    if last.pc.Done? {
      DoneStays(e, last, choice);
    } else {
      ReachesNext(t, Advance(pid, choice));
      ListingStays(e, last, choice);
      t := Apply(t, Advance(pid, choice));
    }
  }

  lemma DoneStays(d: Dir, c: ClaimCall, choice: Choice)
    requires c.pc.Done?
    ensures Publish(d, ClaimWrite(c)) == d && ClaimNext(d, c, choice) == c
  {
  }

  /**
   * `ClaimPaths` with nobody else moving, started in a reachable state, leads to a reachable state
   * in which a call has returned its result.
   */
  lemma ClaimPathsIsARun(s: State, pid: Pid, input: ClaimInput, id: Id, names: seq<Id>, e: Dir, result: ClaimResult) returns (t: State)
    requires Reachable(s) && pid !in s.procs && id !in s.dir.claimFiles && Lists(names, s.dir)
    requires Concluded(s.dir, FreshCall(input, id), Choice(true, names), e, result)
    ensures Reachable(t) && t.dir == e && t.earlier == s.earlier
    ensures pid in t.procs && t.procs[pid].Claiming? && t.procs[pid].claimCall.pc == Done(result)
  {
    hide Reachable, ClaimRun, Lists;
    var c, choice := FreshCall(input, id), Choice(true, names);
    var last :| Claims(s.dir, c, choice, e, last) && last.pc == Done(result);
    var n: nat :| ClaimRun(s.dir, c, choice, n) == (e, last);
    ReachesNext(s, Start(pid, Claiming(c)));
    t := ClaimReaches(Apply(s, Start(pid, Claiming(c))), pid, c, choice, n);
  }

  /** The same of `ReleaseClaim`. */
  lemma ReleaseClaimIsARun(s: State, pid: Pid, r: ReleaseCall, names: seq<Id>, e: Dir, result: Result<Release, Refused>) returns (t: State)
    requires Reachable(s) && pid !in s.procs && r.pc.Enter? && Lists(names, s.dir)
    requires Stopped(s.dir, r, e, result)
    ensures Reachable(t) && t.dir == e
  {
    hide Reachable, ReleaseRun, ValidRun, Run;
    var last :| Releases(s.dir, r, e, last);
    var n: nat :| ReleaseRun(s.dir, r, n) == (e, last);
    var started := Apply(s, Start(pid, Releasing(r)));
    ReachesNext(s, Start(pid, Releasing(r)));
    var events := RunAlone(started, pid, names, n);
    ReachesLater(started, events);
    t := Run(started, events);
  }
}
