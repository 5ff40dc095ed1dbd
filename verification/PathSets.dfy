/** Comparison of path keys, and the reduced set of paths a claim names. */
module PathSets {
  import opened Text
  import opened Paths

  // --- comparing keys --------------------------------------------------------------

  /** Equal keys, or one a proper segment prefix of the other. */
  predicate KeysOverlap(a: string, b: string) {
    a == b || b + "/" <= a || a + "/" <= b
  }

  /** The segments of `outer` begin those of `inner`; equality included. */
  predicate KeyContains(outer: string, inner: string) {
    outer == inner || outer + "/" <= inner
  }

  /** Containment is the prefix order on segment lists, not on characters. */
  lemma ContainsIsSegmentPrefix(outer: string, inner: string)
    ensures KeyContains(outer, inner) <==> Split(outer) <= Split(inner)
  {
    if outer + "/" <= inner {
      var rest := inner[|outer| + 1..];
      assert inner == outer + "/" + rest;
      SplitConcat(outer, rest);
    }
    if Split(outer) <= Split(inner) && outer != inner {
      var rest := Split(inner)[|Split(outer)|..];
      assert Split(inner) == Split(outer) + rest;
      JoinSplit(outer);
      JoinSplit(inner);
      assert rest == [] ==> Split(inner) == Split(outer);
      JoinConcat(Split(outer), rest);
      assert inner == outer + "/" + Join(rest);
    }
  }

  lemma {:induction false} JoinConcat(a: seq<string>, b: seq<string>)
    requires a != [] && b != []
    ensures Join(a + b) == Join(a) + "/" + Join(b)
  {
    if |a| == 1 {
      assert (a + b)[1..] == b;
    } else {
      assert (a + b)[1..] == a[1..] + b;
      JoinConcat(a[1..], b);
    }
  }

  lemma ContainsIsPartialOrder(a: string, b: string, c: string)
    ensures KeyContains(a, a)
    ensures KeyContains(a, b) && KeyContains(b, a) ==> a == b
    ensures KeyContains(a, b) && KeyContains(b, c) ==> KeyContains(a, c)
  {
    ContainsIsSegmentPrefix(a, b);
    ContainsIsSegmentPrefix(b, c);
    ContainsIsSegmentPrefix(a, c);
  }

  /** Two keys overlap exactly when some path lies at or below both. */
  lemma OverlapIsSharedTerritory(a: string, b: string)
    ensures KeysOverlap(a, b) <==> exists shared :: KeyContains(a, shared) && KeyContains(b, shared)
  {
    if KeysOverlap(a, b) {
      var shared := if KeyContains(a, b) then b else a;
      assert KeyContains(a, shared) && KeyContains(b, shared);
    }
    if exists shared :: KeyContains(a, shared) && KeyContains(b, shared) {
      var shared :| KeyContains(a, shared) && KeyContains(b, shared);
      ContainsIsSegmentPrefix(a, shared);
      ContainsIsSegmentPrefix(b, shared);
      ContainsIsSegmentPrefix(a, b);
      ContainsIsSegmentPrefix(b, a);
      var sa, sb, sc := Split(a), Split(b), Split(shared);
      if |sa| <= |sb| { assert sa == sc[..|sa|] == sb[..|sa|]; } else { assert sb == sc[..|sb|] == sa[..|sb|]; }
    }
  }

  // --- the set a claim names ---------------------------------------------------------

  function FindKey(entries: seq<CanonicalPath>, key: string): (i: nat)
    ensures i <= |entries|
    ensures i < |entries| ==> entries[i].key == key
    ensures forall j :: 0 <= j < i ==> entries[j].key != key
  {
    if entries == [] || entries[0].key == key then 0 else 1 + FindKey(entries[1..], key)
  }

  /** One spelling recorded under its key: the first spelling stays unless a directory replaces a file. */
  function RecordEntry(entries: seq<CanonicalPath>, value: CanonicalPath): seq<CanonicalPath> {
    var i := FindKey(entries, value.key);
    if i == |entries| then entries + [value]
    else if value.directory && !entries[i].directory then entries[i := value]
    else entries
  }

  function EntriesOf(paths: seq<string>): Result<seq<CanonicalPath>, Refusal> {
    if paths == [] then Ok([])
    else
      match EntriesOf(paths[..|paths| - 1])
      case Err(why) => Err(why)
      case Ok(entries) =>
        match Canonical(paths[|paths| - 1])
        case Err(why) => Err(why)
        case Ok(value) => Ok(RecordEntry(entries, value))
  }

  predicate Covered(entry: CanonicalPath, all: seq<CanonicalPath>) {
    exists i :: 0 <= i < |all| && all[i] != entry && KeyContains(all[i].key, entry.key)
  }

  /** The entries no other entry of `all` covers. */
  function Uncovered(entries: seq<CanonicalPath>, all: seq<CanonicalPath>): seq<CanonicalPath> {
    if entries == [] then []
    else if Covered(entries[0], all) then Uncovered(entries[1..], all)
    else [entries[0]] + Uncovered(entries[1..], all)
  }

  lemma {:induction false} UncoveredElements(entries: seq<CanonicalPath>, all: seq<CanonicalPath>)
    ensures forall e :: e in Uncovered(entries, all) <==> e in entries && !Covered(e, all)
  {
    if entries != [] {
      UncoveredElements(entries[1..], all);
      assert forall e :: e in entries <==> e == entries[0] || e in entries[1..];
    }
  }

  function Keys(entries: seq<CanonicalPath>): (r: seq<string>)
    ensures |r| == |entries|
    ensures forall i :: 0 <= i < |entries| ==> r[i] == entries[i].key
  {
    seq(|entries|, i requires 0 <= i < |entries| => entries[i].key)
  }

  function Insert(entry: CanonicalPath, sorted: seq<CanonicalPath>): (r: seq<CanonicalPath>)
    ensures multiset(r) == multiset(sorted) + multiset{entry}
  {
    if sorted == [] then [entry]
    else if Less(sorted[0].key, entry.key) then
      assert sorted == [sorted[0]] + sorted[1..];
      [sorted[0]] + Insert(entry, sorted[1..])
    else [entry] + sorted
  }

  function SortByKey(entries: seq<CanonicalPath>): (r: seq<CanonicalPath>)
    ensures multiset(r) == multiset(entries)
  {
    if entries == [] then []
    else
      assert entries == entries[..|entries| - 1] + [entries[|entries| - 1]];
      Insert(entries[|entries| - 1], SortByKey(entries[..|entries| - 1]))
  }

  /** The uncovered entries of a list of spellings in key order, or the first refusal. */
  function CanonicalSet(paths: seq<string>): Result<seq<CanonicalPath>, Refusal> {
    match EntriesOf(paths)
    case Err(why) => Err(why)
    case Ok(entries) => Ok(SortByKey(Uncovered(entries, entries)))
  }

  /** The two loops that build the set, in the form they are written. */
  method CanonicalizeSet(paths: seq<string>) returns (r: Result<seq<CanonicalPath>, Refusal>)
    ensures r == CanonicalSet(paths)
  {
    var byKey: seq<CanonicalPath> := [];
    for i := 0 to |paths|
      invariant EntriesOf(paths[..i]) == Ok(byKey)
    {
      assert paths[..i + 1][..i] == paths[..i];
      var value := CanonicalizePath(paths[i]);
      if value.Err? {
        RefusalStays(paths, i + 1);
        return Err(value.error);
      }
      byKey := RecordEntry(byKey, value.value);
    }
    assert paths[..|paths|] == paths;
    var kept := KeepUncovered(byKey);
    r := Ok(SortByKey(kept));
  }

  method KeepUncovered(entries: seq<CanonicalPath>) returns (kept: seq<CanonicalPath>)
    ensures kept == Uncovered(entries, entries)
  {
    kept := [];
    for i := 0 to |entries|
      invariant kept + Uncovered(entries[i..], entries) == Uncovered(entries, entries)
    {
      var e := entries[i];
      ghost var later := Uncovered(entries[i + 1..], entries);
      assert entries[i..][1..] == entries[i + 1..];
      assert kept + ([e] + later) == kept + [e] + later;
      if !Covered(e, entries) { kept := kept + [e]; }
    }
  }

  lemma {:induction false} RefusalStays(paths: seq<string>, n: nat)
    requires n <= |paths| && EntriesOf(paths[..n]).Err?
    ensures EntriesOf(paths) == EntriesOf(paths[..n])
    decreases |paths| - n
  {
    if n == |paths| {
      assert paths[..n] == paths;
    } else {
      assert paths[..n + 1][..n] == paths[..n];
      RefusalStays(paths, n + 1);
    }
  }

  // --- what the reduction keeps --------------------------------------------------------

  ghost predicate DistinctKeys(entries: seq<CanonicalPath>) {
    forall i, j :: 0 <= i < j < |entries| ==> entries[i].key != entries[j].key
  }

  ghost predicate NamesKey(paths: seq<string>, key: string) {
    exists p :: p in paths && Canonical(p).Ok? && Canonical(p).value.key == key
  }

  ghost predicate NamesDirectory(paths: seq<string>, key: string) {
    exists p :: p in paths && Canonical(p).Ok? && Canonical(p).value.key == key && Canonical(p).value.directory
  }

  /** The recorded entries: every key named, once, and a directory if any spelling of it is one. */
  lemma {:induction false} EntriesSound(paths: seq<string>)
    ensures EntriesOf(paths).Ok? <==> forall p :: p in paths ==> Canonical(p).Ok?
    ensures EntriesOf(paths).Ok? ==>
              var entries := EntriesOf(paths).value;
              && DistinctKeys(entries)
              && (forall e :: e in entries ==> exists p :: p in paths && Canonical(p) == Ok(e))
              && (forall key :: NamesKey(paths, key) <==> key in Keys(entries))
              && (forall e :: e in entries ==> (e.directory <==> NamesDirectory(paths, e.key)))
  {
    if paths == [] {
      return;
    }
    var init, last := paths[..|paths| - 1], paths[|paths| - 1];
    EntriesSound(init);
    assert forall p :: p in paths <==> p in init || p == last;
    if EntriesOf(init).Ok? && Canonical(last).Ok? {
      var before, value := EntriesOf(init).value, Canonical(last).value;
      var after := EntriesOf(paths).value;
      RecordSound(before, value);
      forall e | e in after ensures exists p :: p in paths && Canonical(p) == Ok(e) {
        if e in before {
          var p :| p in init && Canonical(p) == Ok(e);
          assert p in paths;
        } else {
          assert last in paths && Canonical(last) == Ok(e);
        }
      }
      forall key ensures NamesKey(paths, key) <==> key in Keys(after) {
        assert NamesKey(paths, key) <==> NamesKey(init, key) || value.key == key;
      }
      forall e | e in after ensures e.directory <==> NamesDirectory(paths, e.key) {
        assert NamesDirectory(paths, e.key) <==> NamesDirectory(init, e.key) || (value.key == e.key && value.directory);
        if !exists b :: b in before && b.key == e.key {
          assert !NamesKey(init, e.key);
        }
      }
    }
  }

  lemma RecordSound(entries: seq<CanonicalPath>, value: CanonicalPath)
    requires DistinctKeys(entries)
    ensures var r := RecordEntry(entries, value);
            && DistinctKeys(r)
            && (forall e :: e in r ==> e in entries || e == value)
            && (forall key :: key in Keys(r) <==> key in Keys(entries) || key == value.key)
            && (forall e :: e in r ==>
                  (e.directory <==> (e.key == value.key && value.directory)
                                    || exists b :: b in entries && b.key == e.key && b.directory))
  {
    hide FindKey;
    var i := FindKey(entries, value.key);
    var r := RecordEntry(entries, value);
    forall key ensures key in Keys(r) <==> key in Keys(entries) || key == value.key {
      if key in Keys(entries) {
        var j :| 0 <= j < |entries| && entries[j].key == key;
        assert r[j].key == key && Keys(r)[j] == key;
      }
      assert i < |r| && Keys(r)[i] == value.key;
      if key in Keys(r) && key != value.key {
        var j :| 0 <= j < |r| && r[j].key == key;
        assert Keys(entries)[j] == key;
      }
    }
  }

  lemma {:induction false} InsertSorted(entry: CanonicalPath, sorted: seq<CanonicalPath>)
    requires StrictlySorted(Keys(sorted)) && entry.key !in Keys(sorted)
    ensures StrictlySorted(Keys(Insert(entry, sorted)))
  {
    if sorted != [] {
      var head, rest := sorted[0], sorted[1..];
      assert Keys(sorted)[0] == head.key;
      assert Keys(rest) == Keys(sorted)[1..];
      LessTotal(head.key, entry.key);
      if Less(head.key, entry.key) {
        InsertSorted(entry, rest);
        var tail := Insert(entry, rest);
        forall e | e in tail ensures Less(head.key, e.key) {
          assert e in multiset(tail);
          if e != entry {
            var k :| 0 <= k < |rest| && rest[k] == e;
            assert Less(Keys(sorted)[0], Keys(sorted)[k + 1]);
          }
        }
        PrependSorted(head, tail);
      } else {
        forall e | e in sorted ensures Less(entry.key, e.key) {
          var k :| 0 <= k < |sorted| && sorted[k] == e;
          if k > 0 {
            assert Less(Keys(sorted)[0], Keys(sorted)[k]);
            LessTransitive(entry.key, head.key, e.key);
          }
        }
        PrependSorted(entry, sorted);
      }
    }
  }

  lemma PrependSorted(head: CanonicalPath, tail: seq<CanonicalPath>)
    requires StrictlySorted(Keys(tail))
    requires forall e :: e in tail ==> Less(head.key, e.key)
    ensures StrictlySorted(Keys([head] + tail))
  {
    hide Less;
    var r := [head] + tail;
    forall i, j | 0 <= i < j < |r| ensures Less(Keys(r)[i], Keys(r)[j]) {
      assert r[j] in tail;
      assert i > 0 ==> Less(Keys(tail)[i - 1], Keys(tail)[j - 1]);
    }
  }

  lemma {:induction false} SortSorts(entries: seq<CanonicalPath>)
    requires DistinctKeys(entries)
    ensures StrictlySorted(Keys(SortByKey(entries)))
  {
    if entries != [] {
      var init, last := entries[..|entries| - 1], entries[|entries| - 1];
      SortSorts(init);
      SameElements(SortByKey(init), init);
      InsertSorted(last, SortByKey(init));
    }
  }

  lemma SameElements(a: seq<CanonicalPath>, b: seq<CanonicalPath>)
    requires multiset(a) == multiset(b)
    ensures forall e :: e in a <==> e in b
    ensures forall key :: key in Keys(a) <==> key in Keys(b)
  {
    forall e ensures e in a <==> e in b {
      assert e in multiset(a) <==> e in multiset(b);
    }
    forall key ensures key in Keys(a) <==> key in Keys(b) {
      if key in Keys(a) {
        var i :| 0 <= i < |a| && a[i].key == key;
        assert a[i] in b;
      }
      if key in Keys(b) {
        var i :| 0 <= i < |b| && b[i].key == key;
        assert b[i] in a;
      }
    }
  }

  // --- the promises of a reduced set -----------------------------------------------------

  /** Every entry lies under an uncovered one: follow covering entries, whose keys only get shorter. */
  lemma {:induction false} CoveredByKept(e: CanonicalPath, entries: seq<CanonicalPath>) returns (top: CanonicalPath)
    requires DistinctKeys(entries) && e in entries
    ensures top in Uncovered(entries, entries) && KeyContains(top.key, e.key)
    decreases |e.key|
  {
    UncoveredElements(entries, entries);
    if Covered(e, entries) {
      var i :| 0 <= i < |entries| && entries[i] != e && KeyContains(entries[i].key, e.key);
      var j :| 0 <= j < |entries| && entries[j] == e;
      top := CoveredByKept(entries[i], entries);
      ContainsIsPartialOrder(top.key, entries[i].key, e.key);
    } else {
      top := e;
    }
  }

  lemma {:induction false} UncoveredDistinct(entries: seq<CanonicalPath>, all: seq<CanonicalPath>)
    requires DistinctKeys(entries)
    ensures DistinctKeys(Uncovered(entries, all))
  {
    if entries != [] {
      var rest := Uncovered(entries[1..], all);
      UncoveredDistinct(entries[1..], all);
      UncoveredElements(entries[1..], all);
      forall i | 0 <= i < |rest| ensures rest[i].key != entries[0].key {
        assert rest[i] in rest;
        var k :| 0 <= k < |entries[1..]| && entries[1..][k] == rest[i];
        assert entries[k + 1] == rest[i];
      }
    }
  }

  /** The keys of a reduced set: the named keys that no other named key contains. */
  ghost predicate TopKey(paths: seq<string>, key: string) {
    NamesKey(paths, key) && forall other :: NamesKey(paths, other) && KeyContains(other, key) ==> other == key
  }

  lemma ReducedKeys(paths: seq<string>)
    requires CanonicalSet(paths).Ok?
    ensures var reduced := CanonicalSet(paths).value;
            && (forall key :: key in Keys(reduced) <==> TopKey(paths, key))
            && (forall e :: e in reduced ==> e in EntriesOf(paths).value)
            && StrictlySorted(Keys(reduced))
  {
    EntriesSound(paths);
    hide EntriesOf, Uncovered, SortByKey, Canonical, Less, KeyContains;
    var entries := EntriesOf(paths).value;
    var kept := Uncovered(entries, entries);
    UncoveredDistinct(entries, entries);
    UncoveredElements(entries, entries);
    SortSorts(kept);
    SameElements(SortByKey(kept), kept);
    forall key ensures key in Keys(kept) <==> TopKey(paths, key) {
      if key in Keys(kept) {
        var i :| 0 <= i < |kept| && kept[i].key == key;
        assert kept[i] in kept && kept[i] in entries;
        KeptIsTop(paths, kept[i]);
      }
      if TopKey(paths, key) {
        var i :| 0 <= i < |entries| && Keys(entries)[i] == key;
        TopIsKept(paths, entries[i]);
        var j :| 0 <= j < |kept| && kept[j] == entries[i];
        assert Keys(kept)[j] == key;
      }
    }
  }

  lemma KeptIsTop(paths: seq<string>, e: CanonicalPath)
    requires EntriesOf(paths).Ok?
    requires var entries := EntriesOf(paths).value; e in entries && !Covered(e, entries)
    ensures TopKey(paths, e.key)
  {
    EntriesSound(paths);
    var entries := EntriesOf(paths).value;
    var i :| 0 <= i < |entries| && entries[i] == e;
    assert Keys(entries)[i] == e.key;
    forall other | NamesKey(paths, other) && KeyContains(other, e.key) ensures other == e.key {
      var j :| 0 <= j < |entries| && Keys(entries)[j] == other;
      assert entries[j] == e;
    }
  }

  lemma TopIsKept(paths: seq<string>, e: CanonicalPath)
    requires EntriesOf(paths).Ok? && e in EntriesOf(paths).value && TopKey(paths, e.key)
    ensures !Covered(e, EntriesOf(paths).value)
  {
    EntriesSound(paths);
    var entries := EntriesOf(paths).value;
    var j :| 0 <= j < |entries| && entries[j] == e;
    forall i | 0 <= i < |entries| && KeyContains(entries[i].key, e.key) ensures entries[i] == e {
      assert Keys(entries)[i] == entries[i].key;
      assert NamesKey(paths, entries[i].key);
    }
  }

  /** The reduced set is a sorted antichain of accepted spellings. */
  lemma ReducedIsAntichain(paths: seq<string>)
    requires CanonicalSet(paths).Ok?
    ensures var reduced := CanonicalSet(paths).value;
            && StrictlySorted(Keys(reduced))
            && (forall i, j :: 0 <= i < |reduced| && 0 <= j < |reduced| && KeyContains(reduced[i].key, reduced[j].key) ==> i == j)
            && (forall e :: e in reduced ==> exists p :: p in paths && Canonical(p) == Ok(e))
  {
    ReducedKeys(paths);
    EntriesSound(paths);
    var reduced := CanonicalSet(paths).value;
    forall i, j | 0 <= i < |reduced| && 0 <= j < |reduced| && KeyContains(reduced[i].key, reduced[j].key) ensures i == j {
      assert Keys(reduced)[i] in Keys(reduced) && Keys(reduced)[j] in Keys(reduced);
      assert reduced[i].key == reduced[j].key;
      LessIrreflexive(reduced[i].key);
    }
  }

  /** It overlaps exactly the paths the full input overlaps. */
  lemma ReductionPreservesOverlap(paths: seq<string>, wanted: string)
    requires CanonicalSet(paths).Ok?
    ensures (exists e :: e in CanonicalSet(paths).value && KeysOverlap(e.key, wanted))
            <==> exists key :: NamesKey(paths, key) && KeysOverlap(key, wanted)
  {
    ReducedIsAntichain(paths);
    var reduced := CanonicalSet(paths).value;
    if exists e :: e in reduced && KeysOverlap(e.key, wanted) {
      var e :| e in reduced && KeysOverlap(e.key, wanted);
      var p :| p in paths && Canonical(p) == Ok(e);
      assert NamesKey(paths, e.key);
    }
    if exists key :: NamesKey(paths, key) && KeysOverlap(key, wanted) {
      var key :| NamesKey(paths, key) && KeysOverlap(key, wanted);
      var top := TopAbove(paths, key);
      WiderOverlaps(top.key, key, wanted);
    }
  }

  lemma TopAbove(paths: seq<string>, key: string) returns (top: CanonicalPath)
    requires CanonicalSet(paths).Ok? && NamesKey(paths, key)
    ensures top in CanonicalSet(paths).value && KeyContains(top.key, key)
  {
    EntriesSound(paths);
    var entries := EntriesOf(paths).value;
    var i :| 0 <= i < |entries| && Keys(entries)[i] == key;
    top := CoveredByKept(entries[i], entries);
    SameElements(CanonicalSet(paths).value, Uncovered(entries, entries));
  }

  /** A path above an overlapping path overlaps too. */
  lemma WiderOverlaps(outer: string, inner: string, wanted: string)
    requires KeyContains(outer, inner) && KeysOverlap(inner, wanted)
    ensures KeysOverlap(outer, wanted)
  {
    OverlapIsSharedTerritory(inner, wanted);
    var shared :| KeyContains(inner, shared) && KeyContains(wanted, shared);
    ContainsIsPartialOrder(outer, inner, shared);
    OverlapIsSharedTerritory(outer, wanted);
  }

  /** The keys do not depend on the order or duplication of the input. */
  lemma ReductionIgnoresOrder(paths: seq<string>, others: seq<string>)
    requires forall p :: p in paths <==> p in others
    ensures CanonicalSet(paths).Ok? == CanonicalSet(others).Ok?
    ensures CanonicalSet(paths).Ok? ==> Keys(CanonicalSet(paths).value) == Keys(CanonicalSet(others).value)
  {
    EntriesSound(paths);
    EntriesSound(others);
    if CanonicalSet(paths).Ok? {
      ReducedKeys(paths);
      ReducedKeys(others);
      assert forall key :: NamesKey(paths, key) <==> NamesKey(others, key);
      SortedUnique(Keys(CanonicalSet(paths).value), Keys(CanonicalSet(others).value));
    }
  }

  // --- what a stored claim covers ----------------------------------------------------------

  datatype Recorded = Everything | Keyed(keys: seq<string>)

  function KeysOfSpellings(paths: seq<string>): Recorded {
    if paths == [] then Keyed([])
    else match Canonical(paths[0])
      case Err(_) => Everything
      case Ok(value) =>
        match KeysOfSpellings(paths[1..])
        case Everything => Everything
        case Keyed(rest) => Keyed([value.key] + rest)
  }

  /** The keys of a record, in its order; `Everything` if it is empty or any spelling is refused. */
  function RecordedKeys(paths: seq<string>): Recorded {
    if paths == [] then Everything else KeysOfSpellings(paths)
  }

  predicate OverlapsAny(recorded: Recorded, wanted: seq<string>) {
    recorded.Everything?
    || exists i, j :: 0 <= i < |recorded.keys| && 0 <= j < |wanted| && KeysOverlap(recorded.keys[i], wanted[j])
  }

  function Spellings(entries: seq<CanonicalPath>): (r: seq<string>)
    ensures |r| == |entries|
    ensures forall i :: 0 <= i < |entries| ==> r[i] == entries[i].path
  {
    seq(|entries|, i requires 0 <= i < |entries| => entries[i].path)
  }

  lemma {:induction false} KeysOfCanonicalSpellings(entries: seq<CanonicalPath>)
    requires forall e :: e in entries ==> Canonical(e.path) == Ok(e)
    ensures KeysOfSpellings(Spellings(entries)) == Keyed(Keys(entries))
  {
    if entries != [] {
      assert entries[0] in entries;
      assert Spellings(entries)[1..] == Spellings(entries[1..]);
      assert Keys(entries) == [entries[0].key] + Keys(entries[1..]);
      KeysOfCanonicalSpellings(entries[1..]);
    } else {
      assert Keys(entries) == [];
    }
  }

  /** A stored claim is re-read as exactly the keys it was decided on, and reduces to itself. */
  lemma StoredKeysAreDecidedKeys(paths: seq<string>)
    requires CanonicalSet(paths).Ok? && CanonicalSet(paths).value != []
    ensures var reduced := CanonicalSet(paths).value;
            RecordedKeys(Spellings(reduced)) == Keyed(Keys(reduced))
  {
    ReducedAreCanonical(paths);
    KeysOfCanonicalSpellings(CanonicalSet(paths).value);
  }

  lemma ReducedAreCanonical(paths: seq<string>)
    requires CanonicalSet(paths).Ok?
    ensures forall e :: e in CanonicalSet(paths).value ==> Canonical(e.path) == Ok(e)
  {
    ReducedKeys(paths);
    EntriesSound(paths);
    forall e | e in CanonicalSet(paths).value ensures Canonical(e.path) == Ok(e) {
      var p :| p in paths && Canonical(p) == Ok(e);
      CanonicalFixedPoint(p);
    }
  }

  lemma SpellingNamesKey(entries: seq<CanonicalPath>, key: string)
    requires forall e :: e in entries ==> Canonical(e.path) == Ok(e)
    ensures NamesKey(Spellings(entries), key) <==> key in Keys(entries)
  {
    hide Canonical;
    if NamesKey(Spellings(entries), key) {
      var p :| p in Spellings(entries) && Canonical(p).Ok? && Canonical(p).value.key == key;
      var i :| 0 <= i < |entries| && Spellings(entries)[i] == p;
      assert entries[i] in entries && Keys(entries)[i] == key;
    }
    if key in Keys(entries) {
      var i :| 0 <= i < |entries| && Keys(entries)[i] == key;
      assert entries[i] in entries && Spellings(entries)[i] in Spellings(entries);
    }
  }

  /** Reducing the recorded spellings of a reduced set gives the set back: paths, keys and directory flags. */
  lemma ReductionIsIdempotent(paths: seq<string>)
    requires CanonicalSet(paths).Ok?
    ensures CanonicalSet(Spellings(CanonicalSet(paths).value)) == CanonicalSet(paths)
  {
    hide Canonical, EntriesOf, Uncovered, SortByKey, KeyContains, Less;
    ReducedIsAntichain(paths);
    var reduced := CanonicalSet(paths).value;
    var spelled := Spellings(reduced);
    forall e | e in reduced ensures Canonical(e.path) == Ok(e) {
      var p :| p in paths && Canonical(p) == Ok(e);
      CanonicalFixedPoint(p);
    }
    forall p | p in spelled ensures Canonical(p).Ok? {
      var i :| 0 <= i < |reduced| && spelled[i] == p;
      assert reduced[i] in reduced;
    }
    EntriesSound(spelled);
    assert CanonicalSet(spelled).Ok?;
    ReducedOnce(reduced);
  }

  lemma ReducedOnce(reduced: seq<CanonicalPath>)
    requires StrictlySorted(Keys(reduced)) && CanonicalSet(Spellings(reduced)).Ok?
    requires forall i, j :: 0 <= i < |reduced| && 0 <= j < |reduced| && KeyContains(reduced[i].key, reduced[j].key) ==> i == j
    requires forall e :: e in reduced ==> Canonical(e.path) == Ok(e)
    ensures CanonicalSet(Spellings(reduced)) == Ok(reduced)
  {
    hide Canonical, CanonicalSet, KeyContains, Less;
    var spelled := Spellings(reduced);
    var again := CanonicalSet(spelled).value;
    ReducedKeys(spelled);
    ReducedIsAntichain(spelled);
    forall key ensures key in Keys(again) <==> key in Keys(reduced) {
      SpellingNamesKey(reduced, key);
      if key in Keys(reduced) { OwnTop(reduced, key); }
    }
    SortedUnique(Keys(again), Keys(reduced));
    forall i | 0 <= i < |reduced| ensures again[i] == reduced[i] {
      assert Keys(again)[i] == Keys(reduced)[i];
      assert again[i] in again;
      var p :| p in spelled && Canonical(p) == Ok(again[i]);
      var j :| 0 <= j < |reduced| && spelled[j] == p;
      assert reduced[j] in reduced;
      assert Keys(reduced)[j] == Keys(reduced)[i];
      if i < j { assert Less(Keys(reduced)[i], Keys(reduced)[j]); }
      if j < i { assert Less(Keys(reduced)[j], Keys(reduced)[i]); }
      LessIrreflexive(Keys(reduced)[i]);
    }
    assert |again| == |reduced|;
    assert again == reduced;
  }

  lemma OwnTop(reduced: seq<CanonicalPath>, key: string)
    requires forall i, j :: 0 <= i < |reduced| && 0 <= j < |reduced| && KeyContains(reduced[i].key, reduced[j].key) ==> i == j
    requires forall e :: e in reduced ==> Canonical(e.path) == Ok(e)
    requires key in Keys(reduced)
    ensures TopKey(Spellings(reduced), key)
  {
    hide Canonical, KeyContains;
    SpellingNamesKey(reduced, key);
    forall other | NamesKey(Spellings(reduced), other) && KeyContains(other, key) ensures other == key {
      SpellingNamesKey(reduced, other);
      var i :| 0 <= i < |reduced| && Keys(reduced)[i] == other;
      var j :| 0 <= j < |reduced| && Keys(reduced)[j] == key;
    }
  }

  /** A set is refused only for a refused spelling, and reduced to nothing only if it is empty. */
  lemma ReadableSet(paths: seq<string>)
    ensures CanonicalSet(paths).Ok? <==> forall i :: 0 <= i < |paths| ==> Canonical(paths[i]).Ok?
    ensures CanonicalSet(paths).Ok? ==> (CanonicalSet(paths).value == [] <==> paths == [])
  {
    hide EntriesOf, Uncovered, SortByKey, Canonical;
    EntriesSound(paths);
    assert forall p :: p in paths <==> exists i :: 0 <= i < |paths| && paths[i] == p;
    if CanonicalSet(paths).Ok? {
      var reduced := CanonicalSet(paths).value;
      if paths != [] {
        var key := Canonical(paths[0]).value.key;
        ReductionPreservesOverlap(paths, key);
        assert paths[0] in paths && KeysOverlap(key, key);
      } else {
        ReducedIsAntichain(paths);
        SomeElement(reduced, []);
      }
    }
  }
}
