/** When `workMode` answers edit, and when each of its refusals: by paths and processes, not by its own checks. */
module WorkModeAnswers {
  import opened Text
  import opened Paths
  import opened PathSets
  import opened Records
  import opened Directory
  import opened HotFiles
  import opened ClaimProtocol
  import opened ClaimInvariant
  import opened ClaimSafety
  import opened ClaimReleases
  import opened ClaimRefusals
  import opened WorkMode

  /** The record names no path, or one that is refused: it may mean any territory. */
  predicate NamesNothing(claim: Claim) {
    claim.paths == [] || exists i :: 0 <= i < |claim.paths| && Canonical(claim.paths[i]).Err?
  }

  /** A path at or below one the claim names. */
  predicate Below(claim: Claim, key: string) {
    exists i :: 0 <= i < |claim.paths| && Canonical(claim.paths[i]).Ok? && KeyContains(Canonical(claim.paths[i]).value.key, key)
  }

  predicate Wanted(scope: seq<CanonicalPath>, key: string) {
    exists i :: 0 <= i < |scope| && KeyContains(scope[i].key, key)
  }

  /** Some path lies at or below both a path of the claim and a wanted one. */
  ghost predicate Shares(claim: Claim, scope: seq<CanonicalPath>) {
    NamesNothing(claim) || exists key :: Below(claim, key) && Wanted(scope, key)
  }

  ghost predicate TouchesCharter(key: string) {
    exists shared :: KeyContains(key, shared) && InCharter(shared)
  }

  /** A non-integrator's hot paths each lie in a scope the integrator handed to it, under its one active claim of that scope. */
  ghost predicate MayTouch(s: State, me: Owner, scope: seq<CanonicalPath>) {
    me.role == INTEGRATOR
    || forall i :: 0 <= i < |scope| && TouchesCharter(scope[i].key) ==>
         exists n :: n in s.dir.order && UnderHandoff(s.dir, s.dir.order[n], me, scope[i].key)
  }

  ghost predicate OtherHolds(s: State, me: Owner, scope: seq<CanonicalPath>) {
    || (exists n :: n in s.dir.order && Active(s.dir, s.dir.order[n]) && !SameOwner(s.dir.order[n].owner, me) && Shares(s.dir.order[n], scope))
    || (exists id :: id in s.earlier && !Released(s.dir, s.earlier[id]) && !SameOwner(s.earlier[id].owner, me) && Shares(s.earlier[id], scope))
  }

  ghost predicate OtherAsks(d: Dir, me: Owner, scope: seq<CanonicalPath>) {
    exists n :: n in d.order && d.order[n].id !in d.decisions && !SameOwner(d.order[n].owner, me) && Shares(d.order[n], scope)
  }

  // --- territory -------------------------------------------------------------------------------------

  lemma {:induction false} SpellingsRead(paths: seq<string>)
    ensures KeysOfSpellings(paths).Everything? <==> exists i :: 0 <= i < |paths| && Canonical(paths[i]).Err?
    ensures KeysOfSpellings(paths).Keyed? ==>
              var keys := KeysOfSpellings(paths).keys;
              |keys| == |paths| && forall i :: 0 <= i < |keys| ==> Canonical(paths[i]).Ok? && Canonical(paths[i]).value.key == keys[i]
  {
    hide Canonical;
    if paths != [] {
      SpellingsRead(paths[1..]);
      assert forall i :: 1 <= i < |paths| ==> paths[i] == paths[1..][i - 1];
      if Canonical(paths[0]).Ok? && KeysOfSpellings(paths[1..]).Everything? {
        var i :| 0 <= i < |paths| - 1 && Canonical(paths[1..][i]).Err?;
        assert Canonical(paths[i + 1]).Err?;
      }
    }
  }

  lemma SharesIff(claim: Claim, scope: seq<CanonicalPath>)
    ensures OverlapsAny(RecordedKeys(claim.paths), Keys(scope)) <==> Shares(claim, scope)
  {
    hide Canonical, KeyContains, KeysOverlap, KeysOfSpellings;
    SpellingsRead(claim.paths);
    if RecordedKeys(claim.paths).Keyed? {
      var keys, wanted := RecordedKeys(claim.paths).keys, Keys(scope);
      if i, j :| 0 <= i < |keys| && 0 <= j < |wanted| && KeysOverlap(keys[i], wanted[j]) {
        OverlapIsSharedTerritory(keys[i], wanted[j]);
        var key :| KeyContains(keys[i], key) && KeyContains(wanted[j], key);
        assert KeyContains(scope[j].key, key);
        assert Below(claim, key) && Wanted(scope, key);
      }
      if key :| Below(claim, key) && Wanted(scope, key) {
        var i :| 0 <= i < |keys| && KeyContains(Canonical(claim.paths[i]).value.key, key);
        var j :| 0 <= j < |scope| && KeyContains(scope[j].key, key);
        OverlapIsSharedTerritory(keys[i], wanted[j]);
      }
    }
  }

  lemma HeldIff(s: State, me: Owner, scope: seq<CanonicalPath>)
    ensures HeldByAnother(ViewOf(s), me, Keys(scope)) <==> OtherHolds(s, me, scope)
  {
    hide Active, Released, OverlapsAny, RecordedKeys, Shares, SameOwner;
    forall n | n in s.dir.order ensures OverlapsAny(RecordedKeys(s.dir.order[n].paths), Keys(scope)) <==> Shares(s.dir.order[n], scope) {
      SharesIff(s.dir.order[n], scope);
    }
    forall id | id in s.earlier ensures OverlapsAny(RecordedKeys(s.earlier[id].paths), Keys(scope)) <==> Shares(s.earlier[id], scope) {
      SharesIff(s.earlier[id], scope);
    }
  }

  lemma AskedIff(d: Dir, me: Owner, scope: seq<CanonicalPath>)
    ensures ClaimedByAnother(d, me, Keys(scope)) <==> OtherAsks(d, me, scope)
  {
    hide OverlapsAny, RecordedKeys, Shares, SameOwner;
    forall n | n in d.order ensures OverlapsAny(RecordedKeys(d.order[n].paths), Keys(scope)) <==> Shares(d.order[n], scope) {
      SharesIff(d.order[n], scope);
    }
  }

  // --- hot paths ---------------------------------------------------------------------------------------

  lemma UnderIsCovered(s: State, n: nat, me: Owner, key: string)
    requires Inv(s) && n in s.dir.order && UnderHandoff(s.dir, s.dir.order[n], me, key)
    ensures CoveredByHandoff(ViewOf(s), me, key)
  {
    var claim := s.dir.order[n];
    UnderIsHandedOff(s.dir, claim, me, key);
    UnderCovers(s, n, me, key);
    hide Active, SameOwner, Complete, HandedOff, UnderHandoff, CoversKey, Inv;
  }

  lemma UnderIsHandedOff(d: Dir, claim: Claim, me: Owner, key: string)
    requires UnderHandoff(d, claim, me, key)
    ensures HandedOff(d, claim, me) && Active(d, claim)
  {
    hide SameOwner, Complete, CanonicalSet, InScope, Active, SameScope;
  }

  lemma UnderCovers(s: State, n: nat, me: Owner, key: string)
    requires Inv(s) && n in s.dir.order && UnderHandoff(s.dir, s.dir.order[n], me, key)
    ensures CoversKey(s.dir.order[n], key)
  {
    var claim := s.dir.order[n];
    UnderIsHandedOff(s.dir, claim, me, key);
    UserOf(s, n, me);
    ScopeCovers(s.dir, claim.handoffFrom.value, claim, key);
    hide Inv, SameOwner, Complete, AuthorizedUse;
  }

  lemma ScopeCovers(d: Dir, h: Id, claim: Claim, key: string)
    requires AuthorizedUse(d, h, claim) && InScope(d.handoffs[h], key)
    ensures CoversKey(claim, key)
  {
    hide RecordedKeys, SameOwner, Complete, KeyContains, CanonicalSet;
    var scope := CanonicalSet(d.handoffs[h].paths).value;
    var j :| 0 <= j < |scope| && KeyContains(scope[j].key, key);
    assert Keys(CanonicalSet(claim.paths).value)[j] == scope[j].key;
  }

  lemma CoveredIff(s: State, me: Owner, key: string)
    requires Reachable(s)
    ensures CoveredByHandoff(ViewOf(s), me, key) <==> exists n :: n in s.dir.order && UnderHandoff(s.dir, s.dir.order[n], me, key)
  {
    hide Inv, Reachable, Active, Released, HandedOff, CoversKey, UnderHandoff;
    ReachableInv(s);
    forall id | id in s.earlier ensures !HandedOff(s.dir, s.earlier[id], me) { EarlierNeverHandedOff(s, id, me); }
    forall n | n in s.dir.order && Active(s.dir, s.dir.order[n]) && HandedOff(s.dir, s.dir.order[n], me) && CoversKey(s.dir.order[n], key)
      ensures UnderHandoff(s.dir, s.dir.order[n], me, key) {
      UserIsUnderHandoff(s, n, me, key);
    }
    if n :| n in s.dir.order && UnderHandoff(s.dir, s.dir.order[n], me, key) { UnderIsCovered(s, n, me, key); }
  }

  lemma TouchIff(s: State, me: Owner, wants: seq<string>)
    requires Reachable(s) && CanonicalSet(wants).Ok?
    ensures var scope := CanonicalSet(wants).value;
            (me.role != INTEGRATOR && exists i :: 0 <= i < |scope| && IsHot(scope[i].path) && !CoveredByHandoff(ViewOf(s), me, scope[i].key))
            <==> !MayTouch(s, me, scope)
  {
    hide Reachable, CanonicalSet, IsHot, CoveredByHandoff, UnderHandoff, InCharter, Canonical, KeyContains;
    var scope := CanonicalSet(wants).value;
    ReducedAreCanonical(wants);
    forall i | 0 <= i < |scope|
      ensures IsHot(scope[i].path) <==> TouchesCharter(scope[i].key)
      ensures CoveredByHandoff(ViewOf(s), me, scope[i].key) <==> exists n :: n in s.dir.order && UnderHandoff(s.dir, s.dir.order[n], me, scope[i].key)
    {
      HotIff(scope[i].path);
      CoveredIff(s, me, scope[i].key);
    }
  }

  // --- the verdict ---------------------------------------------------------------------------------------

  /**
   * In every reachable state, whatever is read of the undecided attempts afterwards, each verdict is given
   * when and only when it is due: edit exactly when the partner is present, the identity complete, the wanted
   * paths readable, every hot one handed over, and no other process holds or asks for territory of them.
   */
  lemma VerdictIff(s: State, pending: Dir, me: Owner, partnerPresent: bool, wants: seq<string>)
    requires Reachable(s)
    ensures var verdict := WorkModeOver(ViewOf(s), pending, me, partnerPresent, wants);
            && (verdict == PartnerAbsent <==> !partnerPresent)
            && (verdict == IncompleteIdentity <==> partnerPresent && !Complete(me))
            && (verdict == Unreadable <==> partnerPresent && Complete(me) && CanonicalSet(wants).Err?)
            && (partnerPresent && Complete(me) && CanonicalSet(wants).Ok? ==>
                  var scope := CanonicalSet(wants).value;
                  && (verdict == HotPathUncovered <==> !MayTouch(s, me, scope))
                  && (verdict == HeldByOther <==> MayTouch(s, me, scope) && OtherHolds(s, me, scope))
                  && (verdict == BeingClaimed <==> MayTouch(s, me, scope) && !OtherHolds(s, me, scope) && OtherAsks(pending, me, scope))
                  && (verdict == Edit <==> MayTouch(s, me, scope) && !OtherHolds(s, me, scope) && !OtherAsks(pending, me, scope)))
  {
    hide Reachable, Complete, CanonicalSet, IsHot, CoveredByHandoff, HeldByAnother, ClaimedByAnother, MayTouch, OtherHolds, OtherAsks;
    if CanonicalSet(wants).Ok? {
      TouchIff(s, me, wants);
      HeldIff(s, me, CanonicalSet(wants).value);
      AskedIff(pending, me, CanonicalSet(wants).value);
    }
  }
}
