/** Process identity: which spellings are one process, and which never are. */
module Owners {
  import opened Text
  import opened Paths
  import opened Records

  lemma {:induction false} TrimLeft(left: string, s: string)
    requires forall i :: 0 <= i < |left| ==> IsSpace(left[i])
    ensures Trim(left + s) == Trim(s)
    decreases |left|
  {
    if left == [] {
      assert left + s == s;
    } else {
      assert (left + s)[1..] == left[1..] + s;
      TrimLeft(left[1..], s);
    }
  }

  lemma {:induction false} TrimRight(s: string, right: string)
    requires forall i :: 0 <= i < |right| ==> IsSpace(right[i])
    ensures Trim(s + right) == Trim(s)
    decreases |s| + |right|
  {
    if right == [] {
      assert s + right == s;
    } else if s == [] {
      assert s + right == right + [];
      TrimLeft(right, []);
    } else if IsSpace(s[0]) {
      assert (s + right)[1..] == s[1..] + right;
      TrimRight(s[1..], right);
    } else {
      var init := right[..|right| - 1];
      assert (s + right)[..|s + right| - 1] == s + init;
      TrimRight(s, init);
    }
  }

  /** A text says something exactly when some character of it is no space. */
  lemma {:induction false} NonEmptyIff(s: string)
    ensures NonEmpty(s) <==> exists i :: 0 <= i < |s| && !IsSpace(s[i])
    decreases |s|
  {
    if s != "" {
      if IsSpace(s[0]) {
        NonEmptyIff(s[1..]);
        assert forall i :: 1 <= i < |s| ==> s[i] == s[1..][i - 1];
        if i :| 0 <= i < |s| && !IsSpace(s[i]) { assert !IsSpace(s[1..][i - 1]); }
      } else if IsSpace(s[|s| - 1]) {
        NonEmptyIff(s[..|s| - 1]);
        assert s[..|s| - 1][0] == s[0];
      }
    }
  }

  /** A complete identity: a known role, a host and a worktree that say something, a safe process number, a start. */
  lemma CompleteIff(o: Owner)
    ensures Complete(o) <==>
              && o.role in [Fable, Astra, Opus] && 1 <= o.pid <= 9_007_199_254_740_991 && o.start.Some?
              && (exists i :: 0 <= i < |o.host| && !IsSpace(o.host[i]))
              && (exists i :: 0 <= i < |o.worktree| && !IsSpace(o.worktree[i]))
  {
    NonEmptyIff(o.host);
    NonEmptyIff(o.worktree);
  }

  lemma SpaceLower(c: char)
    ensures IsSpace(LowerChar(c)) == IsSpace(c)
  {
  }

  lemma {:induction false} TrimsAlike(s: string)
    ensures Trim(Lower(s)) == Lower(Trim(s))
    decreases |s|
  {
    hide IsSpace, LowerChar, Lower;
    if s != "" {
      SpaceLower(s[0]);
      SpaceLower(s[|s| - 1]);
      if IsSpace(s[0]) {
        assert Lower(s)[1..] == Lower(s[1..]);
        TrimsAlike(s[1..]);
      } else if IsSpace(s[|s| - 1]) {
        assert Lower(s)[..|s| - 1] == Lower(s[..|s| - 1]);
        TrimsAlike(s[..|s| - 1]);
      }
    }
  }

  lemma {:induction false} TrimSlashed(s: string)
    ensures Trim(Slashed(s)) == Slashed(Trim(s))
    decreases |s|
  {
    if s != "" {
      if IsSpace(s[0]) {
        assert Slashed(s)[1..] == Slashed(s[1..]);
        TrimSlashed(s[1..]);
      } else if IsSpace(s[|s| - 1]) {
        assert Slashed(s)[..|s| - 1] == Slashed(s[..|s| - 1]);
        TrimSlashed(s[..|s| - 1]);
      }
    }
  }

  /** One process is one process: the relation is symmetric, transitive, and reflexive on complete identities. */
  lemma SameOwnerIsEquivalence(a: Owner, b: Owner, c: Owner)
    ensures SameOwner(a, a) <==> Complete(a)
    ensures SameOwner(a, b) ==> SameOwner(b, a)
    ensures SameOwner(a, b) && SameOwner(b, c) ==> SameOwner(a, c)
  {
  }

  /** Another role, host, process number, process start or worktree is another process, and so is an incomplete identity. */
  lemma OtherProcess(a: Owner, b: Owner)
    requires || a.role != b.role || a.pid != b.pid || a.start != b.start || !Complete(a) || !Complete(b)
             || Lower(Trim(a.host)) != Lower(Trim(b.host)) || WorktreeKey(a.worktree) != WorktreeKey(b.worktree)
    ensures !SameOwner(a, b)
  {
  }

  /** However host and worktree are spelled, with outer spaces, in small letters or with slashes, it is the same process. */
  lemma RespelledIsSame(a: Owner, left: string, right: string)
    requires Complete(a) && forall i :: 0 <= i < |left| ==> IsSpace(left[i])
    requires forall i :: 0 <= i < |right| ==> IsSpace(right[i])
    ensures SameOwner(a, a.(host := left + (Lower(a.host) + right), worktree := left + (Lower(Slashed(a.worktree)) + right)))
  {
    hide Trim, NonEmpty, WorktreeKey;
    Respelled(a.host, left, right);
    Respelled(Slashed(a.worktree), left, right);
    SlashedIsSame(a.worktree);
  }

  /** Nor does a trailing separator make another process. */
  lemma TrailingSlashIsSame(a: Owner)
    requires Complete(a) && Trim(a.worktree) == a.worktree
    ensures SameOwner(a, a.(worktree := a.worktree + "/"))
  {
    var s := a.worktree;
    TrimmedEnds(s);
    TrimmedEnds(s + "/");
    assert Slashed(s + "/") == Slashed(s) + "/";
    assert (Slashed(s) + "/")[..|s|] == Slashed(s);
  }

  lemma SlashedIsSame(s: string)
    ensures WorktreeKey(Slashed(s)) == WorktreeKey(s) && NonEmpty(Slashed(s)) == NonEmpty(s)
  {
    TrimSlashed(s);
    assert Slashed(Slashed(Trim(s))) == Slashed(Trim(s));
  }

  lemma Respelled(s: string, left: string, right: string)
    requires forall i :: 0 <= i < |left| ==> IsSpace(left[i])
    requires forall i :: 0 <= i < |right| ==> IsSpace(right[i])
    ensures var t := left + (Lower(s) + right);
            Lower(Trim(t)) == Lower(Trim(s)) && WorktreeKey(t) == WorktreeKey(s) && NonEmpty(t) == NonEmpty(s)
  {
    hide IsSpace;
    TrimLeft(left, Lower(s) + right);
    TrimRight(Lower(s), right);
    TrimsAlike(s);
    LowerIdempotent(Trim(s));
    SlashedLower(Trim(s));
    SlashesLower(Slashed(Trim(s)));
    LowerIdempotent(DropTrailingSlashes(Slashed(Trim(s))));
  }

  lemma SlashedLower(s: string)
    ensures Slashed(Lower(s)) == Lower(Slashed(s))
  {
    assert forall i :: 0 <= i < |s| ==> (LowerChar(s[i]) == '\\' <==> s[i] == '\\');
  }

  lemma {:induction false} SlashesLower(s: string)
    ensures DropTrailingSlashes(Lower(s)) == Lower(DropTrailingSlashes(s))
    decreases |s|
  {
    if s != "" && s[|s| - 1] == '/' {
      assert Lower(s)[..|s| - 1] == Lower(s[..|s| - 1]);
      SlashesLower(s[..|s| - 1]);
    }
  }
}
