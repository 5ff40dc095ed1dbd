/** The charter's hot files, what it means to touch one, and who may claim it. */
module HotFiles {
  import opened Text
  import opened Paths
  import opened PathRules
  import opened PathSets
  import opened Records

  /** The charter's files as keys; the last one is a directory. */
  const HOT_KEYS: seq<string> := [
    "package.json", "package-lock.json", "shared/types.ts", "shared/harness.ts", "shared/engines.ts",
    "shared/agents.ts", "shared/capability-packs.ts", "shared/execution.ts", "shared/work-control.ts",
    "shared/contract-revision.ts", "server/app.ts", "server/store.ts", "server/native-work.ts",
    "client/api.ts", "client/console/shell.tsx", "desktop"]

  /** A path at or below a charter file. */
  predicate InCharter(key: string) {
    exists i :: 0 <= i < |HOT_KEYS| && KeyContains(HOT_KEYS[i], key)
  }

  // --- the charter is canonical -----------------------------------------------------------------

  predicate EasyChar(c: char) {
    'a' <= c <= 'z' || c == '-' || c == '.'
  }

  /** Small letters, dashes and inner dots from `lo` to `hi`, and too unlike a device to be one. */
  predicate EasyRange(s: string, lo: nat, hi: nat)
    requires hi <= |s|
  {
    && lo + 3 < hi && (forall i :: lo <= i < hi ==> EasyChar(s[i]))
    && s[lo] != '.' && s[hi - 1] != '.' && (s[lo + 3] == '.' ==> s[lo + 1] == 'p')
    && !(s[lo] == 'c' && s[lo + 1] == 'o' && s[lo + 2] == 'm') && !(s[lo] == 'l' && s[lo + 1] == 'p')
  }

  lemma EasyNotDevice(s: string, d: string)
    requires EasyRange(s, 0, |s|) && DeviceName(d)
    ensures s != d && !(d + "." <= s)
  {
    assert |d| == 3 ==> (d + ".")[3] == '.';
    assert d <= s ==> s[0] == d[0] && s[1] == d[1] && s[2] == d[2] && s[|d| - 1] == d[|d| - 1];
    assert |d| <= |s| ==> EasyChar(s[|d| - 1]);
  }

  lemma EasyIsGood(s: string)
    requires EasyRange(s, 0, |s|)
    ensures GoodSegment(s) && Plain(s) && Lower(s) == s
  {
    hide DeviceName;
    assert forall i :: 0 <= i < |s| ==> EasyChar(s[i]);
    assert Lower(s) == s;
    NameRule(s);
    if NamesDevice(s) {
      var d :| DeviceName(d) && (Lower(s) == d || d + "." <= Lower(s));
      EasyNotDevice(s, d);
    }
  }

  lemma EasyPart(s: string, lo: nat, hi: nat)
    requires lo <= hi <= |s| && EasyRange(s, lo, hi)
    ensures EasyRange(s[lo..hi], 0, hi - lo)
  {
  }

  lemma GoodPath(segments: seq<string>, directory: bool)
    requires segments != [] && (forall s :: s in segments ==> GoodSegment(s) && Plain(s)) && |Spelled(segments, directory).path| <= MAX_PATH_INPUT
    ensures Canonical(Spelled(segments, directory).path) == Ok(Spelled(segments, directory))
  {
    hide GoodSegment, Plain, Canonical, Spelled;
    SpelledAccepted(segments, directory);
  }

  /** File `i` is accepted, with key `i`. */
  predicate IsKeyOf(i: nat) {
    && i < |CHARTER_HOT_FILES| && i < |HOT_KEYS|
    && Canonical(CHARTER_HOT_FILES[i]).Ok? && Canonical(CHARTER_HOT_FILES[i]).value.key == HOT_KEYS[i]
  }

  /** A file in one folder, the separator standing at `at`. */
  lemma InFolder(i: nat, at: nat)
    requires i < |CHARTER_HOT_FILES| && i < |HOT_KEYS| && CHARTER_HOT_FILES[i] == HOT_KEYS[i]
    requires var s := HOT_KEYS[i]; at < |s| < 1000 && s[at] == '/' && EasyRange(s, 0, at) && EasyRange(s, at + 1, |s|)
    ensures IsKeyOf(i)
  {
    hide EasyRange, Canonical, GoodSegment, Plain, CHARTER_HOT_FILES, HOT_KEYS;
    var s := HOT_KEYS[i];
    var folder, name := s[0..at], s[at + 1..|s|];
    EasyPart(s, 0, at);
    EasyPart(s, at + 1, |s|);
    EasyIsGood(folder);
    EasyIsGood(name);
    assert s == folder + "/" + name;
    assert Join([folder, name]) == s by { assert [folder, name][1..] == [name]; }
    LowerConcat(folder + "/", name);
    LowerConcat(folder, "/");
    assert Lower("/") == "/";
    GoodPath([folder, name], false);
  }

  lemma AtTop(i: nat)
    requires i < |CHARTER_HOT_FILES| && i < |HOT_KEYS| && CHARTER_HOT_FILES[i] == HOT_KEYS[i]
    requires |HOT_KEYS[i]| < 1000 && EasyRange(HOT_KEYS[i], 0, |HOT_KEYS[i]|)
    ensures IsKeyOf(i)
  {
    hide EasyRange, Canonical, GoodSegment, Plain, CHARTER_HOT_FILES, HOT_KEYS;
    EasyIsGood(HOT_KEYS[i]);
    GoodPath([HOT_KEYS[i]], false);
  }

  lemma TypesToEngines()
    ensures IsKeyOf(2) && IsKeyOf(3) && IsKeyOf(4)
  {
    hide IsKeyOf;
    InFolder(2, 6);
    InFolder(3, 6);
    InFolder(4, 6);
  }

  lemma AgentsAndPacks()
    ensures IsKeyOf(5) && IsKeyOf(6)
  {
    hide IsKeyOf;
    InFolder(5, 6);
    InFolder(6, 6);
  }

  lemma ExecutionAndControl()
    ensures IsKeyOf(7) && IsKeyOf(8)
  {
    hide IsKeyOf;
    InFolder(7, 6);
    InFolder(8, 6);
  }

  lemma ContractAndApp()
    ensures IsKeyOf(9) && IsKeyOf(10)
  {
    hide IsKeyOf;
    InFolder(9, 6);
    InFolder(10, 6);
  }

  lemma StoreToApi()
    ensures IsKeyOf(11) && IsKeyOf(12) && IsKeyOf(13)
  {
    hide IsKeyOf;
    InFolder(11, 6);
    InFolder(12, 6);
    InFolder(13, 6);
  }

  lemma Packages()
    ensures IsKeyOf(0) && IsKeyOf(1)
  {
    hide IsKeyOf;
    AtTop(0);
    AtTop(1);
  }

  lemma SmallShell()
    ensures Canonical(HOT_KEYS[14]) == Ok(CanonicalPath(HOT_KEYS[14], HOT_KEYS[14], false))
  {
    hide Canonical, EasyRange, GoodSegment, Plain, HOT_KEYS, Lower;
    ShellParts();
    var s := HOT_KEYS[14];
    EasyPart(s, 0, 6);
    EasyPart(s, 7, 14);
    EasyPart(s, 15, |s|);
    EasyIsGood(s[0..6]);
    EasyIsGood(s[7..14]);
    EasyIsGood(s[15..|s|]);
    assert s == s[0..6] + "/" + (s[7..14] + "/" + s[15..|s|]);
    assert Join([s[7..14], s[15..|s|]]) == s[7..14] + "/" + s[15..|s|] by { assert [s[7..14], s[15..|s|]][1..] == [s[15..|s|]]; }
    assert [s[0..6], s[7..14], s[15..|s|]][1..] == [s[7..14], s[15..|s|]];
    GoodPath([s[0..6], s[7..14], s[15..|s|]], false);
  }

  lemma ShellParts()
    ensures |HOT_KEYS| == 16
    ensures var s := HOT_KEYS[14];
            |s| == 24 && s[6] == '/' && s[14] == '/' && EasyRange(s, 0, 6) && EasyRange(s, 7, 14) && EasyRange(s, 15, |s|) && Lower(s) == s
  {
    assert forall i :: 0 <= i < |HOT_KEYS[14]| ==> !('A' <= HOT_KEYS[14][i] <= 'Z');
    assert Lower(HOT_KEYS[14]) == HOT_KEYS[14];
  }

  lemma Shell()
    ensures IsKeyOf(14)
  {
    hide Canonical;
    SmallShell();
    LetterCaseAgrees(CHARTER_HOT_FILES[14]);
    assert Lower(CHARTER_HOT_FILES[14]) == HOT_KEYS[14];
  }

  lemma Desktop()
    ensures IsKeyOf(15)
  {
    hide Canonical, GoodSegment, Plain;
    EasyIsGood("desktop");
    assert Spelled(["desktop"], true).path == "desktop/";
    GoodPath(["desktop"], true);
  }

  /** Every charter file is an accepted path, and these are their keys. */
  lemma CharterKeys()
    ensures |HOT_KEYS| == |CHARTER_HOT_FILES|
    ensures forall i :: 0 <= i < |HOT_KEYS| ==> Canonical(CHARTER_HOT_FILES[i]).Ok? && Canonical(CHARTER_HOT_FILES[i]).value.key == HOT_KEYS[i]
  {
    hide Canonical, HOT_KEYS, CHARTER_HOT_FILES;
    Packages();
    TypesToEngines();
    AgentsAndPacks();
    ExecutionAndControl();
    ContractAndApp();
    StoreToApi();
    Shell();
    Desktop();
    SixteenFiles();
    forall i: nat | i < 16 ensures IsKeyOf(i) {}
  }

  lemma SixteenFiles()
    ensures |HOT_KEYS| == 16 && |CHARTER_HOT_FILES| == 16
  {
  }

  /**
   * A path is hot if and only if it is refused, or some path lies at or below both it and a charter file,
   * which may stand above it, below it or be it.
   */
  lemma HotIff(path: string)
    ensures IsHot(path) <==>
              Canonical(path).Err? || exists shared :: KeyContains(Canonical(path).value.key, shared) && InCharter(shared)
  {
    hide Canonical, HOT_KEYS, CHARTER_HOT_FILES, KeysOverlap, KeyContains;
    CharterKeys();
    if Canonical(path).Ok? {
      var key := Canonical(path).value.key;
      if i :| 0 <= i < |HOT_KEYS| && KeysOverlap(HOT_KEYS[i], key) {
        OverlapIsSharedTerritory(HOT_KEYS[i], key);
        var shared :| KeyContains(HOT_KEYS[i], shared) && KeyContains(key, shared);
        assert InCharter(shared);
      }
      if shared :| KeyContains(key, shared) && InCharter(shared) {
        var i :| 0 <= i < |HOT_KEYS| && KeyContains(HOT_KEYS[i], shared);
        OverlapIsSharedTerritory(HOT_KEYS[i], key);
        assert KeysOverlap(Canonical(CHARTER_HOT_FILES[i]).value.key, key);
      }
    }
  }
}
