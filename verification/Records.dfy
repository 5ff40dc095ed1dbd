/** The records of a coordination directory, and who may speak for a claim. */
module Records {
  import opened Text
  import opened Paths
  import opened PathSets

  type Id = nat

  datatype Role = Fable | Astra | Opus | OtherRole(name: string)

  const INTEGRATOR: Role := Fable
  const PROGRAM: string := "unified-20260913"
  const MAX_SAFE_INTEGER: int := 0x1F_FFFF_FFFF_FFFF

  /** `start` is the process start as an instant; None when it is not an ISO instant. */
  datatype Owner = Owner(role: Role, host: string, pid: int, start: Option<int>, worktree: string)

  datatype Claim = Claim(id: Id, node: string, owner: Owner, paths: seq<string>, baseSha: string, handoffFrom: Option<Id>)

  datatype Authority = Holder | Integrator

  datatype Release = Release(claimId: Id, releasedBy: Owner, authority: Authority, note: string)

  datatype Handoff = Handoff(id: Id, program: string, issuedBy: Owner, recipient: Owner, node: string, baseSha: string, paths: seq<string>)

  datatype Decision = Won | Lost | Abandoned

  // --- owner identity ----------------------------------------------------------------

  predicate Complete(o: Owner) {
    && !o.role.OtherRole?
    && NonEmpty(o.host)
    && 0 < o.pid <= MAX_SAFE_INTEGER
    && o.start.Some?
    && NonEmpty(o.worktree)
  }

  function DropTrailingSlashes(s: string): string
    decreases |s|
  {
    if s != "" && s[|s| - 1] == '/' then DropTrailingSlashes(s[..|s| - 1]) else s
  }

  function WorktreeKey(s: string): string {
    Lower(DropTrailingSlashes(Slashed(Trim(s))))
  }

  /** Both identities are complete and equal up to case, outer spaces and slashes. */
  predicate SameOwner(a: Owner, b: Owner) {
    && Complete(a) && Complete(b)
    && a.role == b.role
    && Lower(Trim(a.host)) == Lower(Trim(b.host))
    && a.pid == b.pid
    && a.start == b.start
    && WorktreeKey(a.worktree) == WorktreeKey(b.worktree)
  }

  // --- who may end a claim -------------------------------------------------------------

  /** Whether `release` ends `claim`: the ids agree, and its author is the owner or a reasoned integrator. */
  predicate Authoritative(release: Release, claim: Claim) {
    && release.claimId == claim.id
    && (|| SameOwner(release.releasedBy, claim.owner)
        || (Complete(release.releasedBy) && release.releasedBy.role == INTEGRATOR && NonEmpty(release.note)))
  }

  // --- hot files -----------------------------------------------------------------------

  const CHARTER_HOT_FILES: seq<string> := [
    "package.json", "package-lock.json", "shared/types.ts", "shared/harness.ts", "shared/engines.ts",
    "shared/agents.ts", "shared/capability-packs.ts", "shared/execution.ts", "shared/work-control.ts",
    "shared/contract-revision.ts", "server/app.ts", "server/store.ts", "server/native-work.ts",
    "client/api.ts", "client/console/Shell.tsx", "desktop/"]

  /** The path is refused, or its key overlaps that of a listed file. */
  predicate IsHot(path: string) {
    Canonical(path).Err?
    || exists i :: 0 <= i < |CHARTER_HOT_FILES| && Canonical(CHARTER_HOT_FILES[i]).Ok?
                   && KeysOverlap(Canonical(CHARTER_HOT_FILES[i]).value.key, Canonical(path).value.key)
  }

  // --- handoffs ------------------------------------------------------------------------

  /** The two reduced sets name the same keys, each with the same directory flag. */
  predicate SameScope(a: seq<CanonicalPath>, b: seq<CanonicalPath>) {
    |a| == |b| && forall i :: 0 <= i < |a| ==> a[i].key == b[i].key && a[i].directory == b[i].directory
  }

  /** A handoff record that authorizes exactly this claim, its single use apart. */
  predicate Authorizes(handoff: Handoff, handoffId: Id, owner: Owner, node: string, baseSha: string, scope: seq<CanonicalPath>) {
    && handoff.program == PROGRAM
    && handoff.id == handoffId
    && Complete(handoff.issuedBy) && handoff.issuedBy.role == INTEGRATOR
    && Complete(handoff.recipient)
    && SameOwner(handoff.recipient, owner)
    && handoff.node == node
    && handoff.baseSha == baseSha
    && CanonicalSet(handoff.paths).Ok?
    && SameScope(CanonicalSet(handoff.paths).value, scope)
  }

  // --- overlap of recorded claims --------------------------------------------------------

  /** The test the protocol makes: the earlier claim's re-read keys against the later one's. */
  predicate Overlap(earlier: Claim, later: Claim) {
    match RecordedKeys(later.paths)
    case Everything => true
    case Keyed(wanted) => OverlapsAny(RecordedKeys(earlier.paths), wanted)
  }

  ghost predicate Covers(claim: Claim, key: string) {
    match RecordedKeys(claim.paths)
    case Everything => true
    case Keyed(keys) => exists i :: 0 <= i < |keys| && KeyContains(keys[i], key)
  }

  lemma OverlapSymmetric(a: Claim, b: Claim)
    ensures Overlap(a, b) == Overlap(b, a)
  {
    if RecordedKeys(a.paths).Keyed? && RecordedKeys(b.paths).Keyed? {
      var ka, kb := RecordedKeys(a.paths).keys, RecordedKeys(b.paths).keys;
      assert forall x, y :: KeysOverlap(x, y) == KeysOverlap(y, x);
      if i, j :| 0 <= i < |ka| && 0 <= j < |kb| && KeysOverlap(ka[i], kb[j]) {
        assert KeysOverlap(kb[j], ka[i]);
      }
      if i, j :| 0 <= i < |kb| && 0 <= j < |ka| && KeysOverlap(kb[i], ka[j]) {
        assert KeysOverlap(ka[j], kb[i]);
      }
    }
  }

  /** Two claims overlap whenever some path lies at or below a path of each. */
  lemma SharedTerritoryOverlaps(a: Claim, b: Claim, key: string)
    requires Covers(a, key) && Covers(b, key)
    ensures Overlap(a, b)
  {
    if RecordedKeys(a.paths).Keyed? && RecordedKeys(b.paths).Keyed? {
      var ka, kb := RecordedKeys(a.paths).keys, RecordedKeys(b.paths).keys;
      var i :| 0 <= i < |ka| && KeyContains(ka[i], key);
      var j :| 0 <= j < |kb| && KeyContains(kb[j], key);
      OverlapIsSharedTerritory(ka[i], kb[j]);
    }
  }
}
