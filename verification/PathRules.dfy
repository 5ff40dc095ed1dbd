/** Which spellings are refused, and why, stated on the characters and names of the input alone. */
module PathRules {
  import opened Text
  import opened Paths

  // --- the rules ----------------------------------------------------------------------------------

  /** A name: neither empty nor one of the two dot segments. */
  predicate Named(s: string) {
    s != "" && s != "." && s != ".."
  }

  /** Device names in lower case, without an extension. */
  ghost predicate DeviceName(d: string) {
    || d in ["con", "prn", "aux", "nul", "conin$", "conout$"]
    || exists c: char :: '0' <= c <= '9' && (d == "com" + [c] || d == "lpt" + [c])
  }

  /** A device in any letter case, alone or with any extension. */
  ghost predicate NamesDevice(s: string) {
    exists d :: DeviceName(d) && (Lower(s) == d || d + "." <= Lower(s))
  }

  predicate OuterSpace(s: string) {
    s != "" && (s[0] == ' ' || s[|s| - 1] == ' ')
  }

  predicate EndsInDot(s: string) {
    s != "" && s[|s| - 1] == '.'
  }

  predicate TildeDigit(s: string) {
    exists i :: 0 <= i < |s| - 1 && s[i] == '~' && '0' <= s[i + 1] <= '9'
  }

  ghost predicate LegalName(s: string) {
    !OuterSpace(s) && !EndsInDot(s) && !NamesDevice(s) && !TildeDigit(s)
  }

  /** How deep below the root these segments lead; negative above it. */
  function Depth(raw: seq<string>): int {
    if raw == [] then 0
    else Depth(raw[..|raw| - 1]) + (if raw[|raw| - 1] == ".." then -1 else if Named(raw[|raw| - 1]) then 1 else 0)
  }

  /** What is wrong with the segment `s` met at this depth, if that is what is wrong with it first. */
  ghost predicate FaultAt(depth: int, s: string, why: Refusal) {
    match why
    case Escapes => s == ".." && depth == 0
    case OuterSpaces => Named(s) && OuterSpace(s)
    case TrailingDot => Named(s) && !OuterSpace(s) && EndsInDot(s)
    case Device => Named(s) && !OuterSpace(s) && !EndsInDot(s) && NamesDevice(s)
    case ShortName => Named(s) && !OuterSpace(s) && !EndsInDot(s) && !NamesDevice(s) && TildeDigit(s)
    case _ => false
  }

  ghost predicate Sound(depth: int, s: string) {
    if s == ".." then depth != 0 else Named(s) ==> LegalName(s)
  }

  ghost predicate SoundUpTo(raw: seq<string>, n: nat)
    requires n <= |raw|
  {
    forall i :: 0 <= i < n ==> Sound(Depth(raw[..i]), raw[i])
  }

  ghost predicate FirstFault(raw: seq<string>, i: nat, why: Refusal) {
    i < |raw| && SoundUpTo(raw, i) && FaultAt(Depth(raw[..i]), raw[i], why)
  }

  /** Something is left, short enough, printable, without a reserved character, and not absolute. */
  predicate Legible(input: string) {
    && 0 < |input| <= 1024
    && (forall i :: 0 <= i < |input| ==> ' ' <= input[i] <= '~' && input[i] !in "<>:\"|?*")
    && input[0] != '/' && input[0] != '\\'
  }

  predicate Separator(c: char) {
    c == '/' || c == '\\'
  }

  /** Separators of either kind become slashes, and nothing else changes. */
  lemma SlashedIs(s: string)
    ensures |Slashed(s)| == |s|
    ensures forall i :: 0 <= i < |s| ==> (Slashed(s)[i] == '/' <==> Separator(s[i])) && (!Separator(s[i]) ==> Slashed(s)[i] == s[i])
  {
  }

  /** The pieces between separators of either kind. */
  function Pieces(input: string): seq<string> {
    Split(Slashed(input))
  }

  // --- names ---------------------------------------------------------------------------------------

  lemma {:induction false} StemOf(s: string, d: string)
    requires '.' !in d
    ensures Stem(s) == d <==> s == d || d + "." <= s
  {
    if d == "" {
      assert "" + "." == ".";
    } else if s != "" && s[0] == d[0] {
      StemOf(s[1..], d[1..]);
      assert d == [d[0]] + d[1..] && s == [s[0]] + s[1..];
      assert d + "." == [d[0]] + (d[1..] + ".");
      assert d + "." <= s <==> d[1..] + "." <= s[1..];
    }
  }

  lemma DeviceStem(stem: string)
    ensures DeviceName(stem) <==>
              || stem in ["con", "prn", "aux", "nul", "conin$", "conout$"]
              || (|stem| == 4 && stem[..3] in ["com", "lpt"] && IsDigit(stem[3]))
  {
    if |stem| == 4 && stem[..3] in ["com", "lpt"] && IsDigit(stem[3]) {
      assert stem == stem[..3] + [stem[3]];
    }
  }

  lemma DeviceRule(s: string)
    ensures IsDevice(s) <==> NamesDevice(s)
  {
    hide Lower, DeviceName;
    StemLower(s);
    var small := Lower(s);
    DeviceStem(Stem(small));
    if DeviceName(Stem(small)) {
      NoDot(Stem(small));
      StemOf(small, Stem(small));
      assert NamesDevice(s);
    }
    if NamesDevice(s) {
      var d :| DeviceName(d) && (small == d || d + "." <= small);
      NoDot(d);
      StemOf(small, d);
    }
  }

  lemma NoDot(d: string)
    ensures DeviceName(d) ==> '.' !in d
  {
  }

  lemma NameRule(s: string)
    requires Plain(s)
    ensures match SegmentProblem(s)
            case None => LegalName(s)
            case Some(why) => Named(s) ==> FaultAt(1, s, why)
  {
    hide Lower, DeviceName, NamesDevice, IsDevice;
    TrimmedEnds(s);
    DeviceRule(s);
    if s != "" { assert PlainChar(s[0]) && PlainChar(s[|s| - 1]); }
    assert HasShortName(s) <==> TildeDigit(s);
  }

  // --- the walk ---------------------------------------------------------------------------------------

  /** Segment `i` leads down to depth `k`, and nothing after it comes back up there. */
  predicate StandsAt(raw: seq<string>, k: int, i: int) {
    && 0 <= i < |raw| && Named(raw[i]) && Depth(raw[..i]) == k
    && forall j :: i < j <= |raw| ==> Depth(raw[..j]) > k
  }

  lemma OneMore(init: seq<string>, last: string)
    ensures var raw := init + [last];
            && raw[..|raw| - 1] == init && Depth(raw) == Depth(init) + (if last == ".." then -1 else if Named(last) then 1 else 0)
            && forall i :: 0 <= i <= |init| ==> raw[..i] == init[..i]
    ensures init[..|init|] == init && (init + [last])[..|init| + 1] == init + [last]
  {
  }

  lemma WalkLast(init: seq<string>, last: string)
    ensures Walk(init + [last], []) ==
              match Walk(init, [])
              case Err(why) => Err(why)
              case Ok(kept) =>
                if last == "" || last == "." then Ok(kept)
                else if last == ".." then (if kept == [] then Err(Escapes) else Ok(kept[..|kept| - 1]))
                else match SegmentProblem(last) case Some(why) => Err(why) case None => Ok(kept + [last])
  {
    hide SegmentProblem;
    WalkConcat(init, [last], []);
    if Walk(init, []).Ok? {
      assert [last][1..] == [];
    }
  }

  /** The walk ends at the first fault, or goes as deep as the segments lead. */
  lemma {:induction false} WalkAnswer(raw: seq<string>)
    requires forall p :: p in raw ==> Plain(p)
    ensures match Walk(raw, [])
            case Ok(kept) => SoundUpTo(raw, |raw|) && |kept| == Depth(raw)
            case Err(why) => exists i :: FirstFault(raw, i, why)
    decreases |raw|
  {
    hide Walk, SegmentProblem, FaultAt, LegalName;
    if raw == [] {
      NoSteps();
    } else {
      var init, last := raw[..|raw| - 1], raw[|raw| - 1];
      assert raw == init + [last];
      WalkAnswer(init);
      WalkLast(init, last);
      OneMore(init, last);
      assert last in raw;
      NameRule(last);
      match Walk(init, [])
      case Err(why) =>
        var i :| FirstFault(init, i, why);
        FaultStays(init, last, i, why);
      case Ok(kept) =>
        LastStep(init, last, kept);
    }
  }

  lemma NoSteps()
    ensures Walk([], []) == Ok([])
  {
  }

  lemma FaultStays(init: seq<string>, last: string, i: nat, why: Refusal)
    requires FirstFault(init, i, why)
    ensures FirstFault(init + [last], i, why)
  {
    hide FaultAt, Sound;
    OneMore(init, last);
    forall j | 0 <= j < i ensures Sound(Depth((init + [last])[..j]), (init + [last])[j]) {
      assert (init + [last])[..j] == init[..j];
      assert Sound(Depth(init[..j]), init[j]);
    }
  }

  lemma LastStep(init: seq<string>, last: string, kept: seq<string>)
    requires SoundUpTo(init, |init|) && |kept| == Depth(init) && Walk(init, []) == Ok(kept)
    requires match SegmentProblem(last) case None => LegalName(last) case Some(why) => Named(last) ==> FaultAt(1, last, why)
    ensures var raw := init + [last];
            match Walk(raw, [])
            case Ok(kept) => SoundUpTo(raw, |raw|) && |kept| == Depth(raw)
            case Err(why) => FirstFault(raw, |init|, why)
  {
    hide Walk, SegmentProblem, OuterSpace, EndsInDot, NamesDevice, TildeDigit, LegalName;
    var raw := init + [last];
    WalkLast(init, last);
    OneMore(init, last);
    forall j | 0 <= j < |init| ensures Sound(Depth(raw[..j]), raw[j]) {
      assert raw[..j] == init[..j];
      assert Sound(Depth(init[..j]), init[j]);
    }
    assert raw[..|init|] == init && raw[|init|] == last;
  }

  lemma FaultIsNotSound(depth: int, s: string, why: Refusal)
    requires FaultAt(depth, s, why)
    ensures !Sound(depth, s)
  {
    hide NamesDevice;
  }

  lemma OneReason(depth: int, s: string, why: Refusal, other: Refusal)
    requires FaultAt(depth, s, why) && FaultAt(depth, s, other)
    ensures why == other
  {
    hide NamesDevice;
  }

  lemma OneFault(raw: seq<string>, i: nat, j: nat, why: Refusal, other: Refusal)
    requires FirstFault(raw, i, why) && FirstFault(raw, j, other)
    ensures i == j && why == other
  {
    hide FaultAt, Sound;
    assert i < j ==> Sound(Depth(raw[..i]), raw[i]);
    assert j < i ==> Sound(Depth(raw[..j]), raw[j]);
    FaultIsNotSound(Depth(raw[..i]), raw[i], why);
    FaultIsNotSound(Depth(raw[..j]), raw[j], other);
    OneReason(Depth(raw[..i]), raw[i], why, other);
  }

  // --- the answer ---------------------------------------------------------------------------------------

  lemma LegibleMeans(input: string)
    ensures Legible(input) <==> CharProblem(input).None?
  {
    assert forall c :: ReservedChar(c) <==> c in "<>:\"|?*";
    if CharProblem(input).None? {
      assert forall i :: 0 <= i < |input| ==> Printable(input[i]) && !ReservedChar(input[i]);
    }
  }

  lemma PlainPieces(input: string)
    requires Legible(input)
    ensures CharProblem(input).None? && forall p :: p in Pieces(input) ==> Plain(p)
  {
    LegibleMeans(input);
    SlashedPlain(input);
    SplitPlainPieces(Slashed(input));
  }

  /**
   * A spelling is accepted if and only if it is legible, every name in it is legal, it never leaves the
   * root, and it does not end there.
   */
  lemma AcceptedIff(input: string)
    ensures Canonical(input).Ok? <==>
              Legible(input) && SoundUpTo(Pieces(input), |Pieces(input)|) && Depth(Pieces(input)) > 0
  {
    hide SoundUpTo, FirstFault, Legible, CharProblem, Walk, Split, Slashed, Spelled, Depth;
    LegibleMeans(input);
    if Legible(input) {
      PlainPieces(input);
      WalkAnswer(Pieces(input));
      if Walk(Pieces(input), []).Err? {
        var i :| FirstFault(Pieces(input), i, Walk(Pieces(input), []).error);
        FaultedIsUnsound(Pieces(input), i, Walk(Pieces(input), []).error);
      }
    }
  }

  lemma FaultedIsUnsound(raw: seq<string>, i: nat, why: Refusal)
    requires FirstFault(raw, i, why)
    ensures !SoundUpTo(raw, |raw|)
  {
    hide FaultAt, Sound;
    FaultIsNotSound(Depth(raw[..i]), raw[i], why);
  }

  /** And of the refusals within a legible spelling, the one answered is that of the first faulty segment. */
  lemma RefusedIff(input: string, why: Refusal)
    requires Legible(input)
    ensures Canonical(input) == Err(why) <==>
              (exists i :: FirstFault(Pieces(input), i, why))
              || (why == Root && SoundUpTo(Pieces(input), |Pieces(input)|) && Depth(Pieces(input)) == 0)
  {
    hide SoundUpTo, FirstFault, Legible, CharProblem, Walk, Split, Slashed, Spelled, Depth;
    var raw := Pieces(input);
    PlainPieces(input);
    WalkAnswer(raw);
    if i :| FirstFault(raw, i, why) {
      FaultedIsUnsound(raw, i, why);
      if Walk(raw, []).Err? {
        var j :| FirstFault(raw, j, Walk(raw, []).error);
        OneFault(raw, i, j, why, Walk(raw, []).error);
      }
    }
    if Walk(raw, []).Err? {
      var j :| FirstFault(raw, j, Walk(raw, []).error);
      FaultedIsUnsound(raw, j, Walk(raw, []).error);
    }
  }

  /** The refusals of an illegible spelling, in the order they are looked for. */
  lemma IllegibleIff(input: string)
    ensures Canonical(input) == Err(Empty) <==> input == ""
    ensures Canonical(input) == Err(TooLong) <==> |input| > 1024
    ensures Canonical(input) == Err(ControlOrNonAscii) <==>
              0 < |input| <= 1024 && exists i :: 0 <= i < |input| && !(' ' <= input[i] <= '~')
    ensures Canonical(input) == Err(Reserved) <==>
              && 0 < |input| <= 1024 && (forall i :: 0 <= i < |input| ==> ' ' <= input[i] <= '~')
              && exists i :: 0 <= i < |input| && input[i] in "<>:\"|?*"
    ensures Canonical(input) == Err(Absolute) <==>
              && 0 < |input| <= 1024 && input[0] in "/\\"
              && forall i :: 0 <= i < |input| ==> ' ' <= input[i] <= '~' && input[i] !in "<>:\"|?*"
  {
    hide Walk, Split, Spelled;
    assert forall c :: ReservedChar(c) <==> c in "<>:\"|?*";
    if CharProblem(input).None? {
      WalkRefusals(Split(Slashed(input)), []);
    }
  }

  lemma {:induction false} WalkRefusals(raw: seq<string>, kept: seq<string>)
    ensures Walk(raw, kept).Err? ==> Walk(raw, kept).error in [Escapes, OuterSpaces, TrailingDot, Device, ShortName]
    decreases |raw|
  {
    if raw != [] {
      if raw[0] == "" || raw[0] == "." { WalkRefusals(raw[1..], kept); }
      else if raw[0] == ".." { if kept != [] { WalkRefusals(raw[1..], kept[..|kept| - 1]); } }
      else if SegmentProblem(raw[0]).None? { WalkRefusals(raw[1..], kept + [raw[0]]); }
    }
  }

  // --- the value -----------------------------------------------------------------------------------------

  ghost predicate Stands(raw: seq<string>, k: int, name: string) {
    exists i :: StandsAt(raw, k, i) && raw[i] == name
  }

  ghost predicate EachStands(raw: seq<string>, names: seq<string>) {
    forall k :: 0 <= k < |names| ==> Stands(raw, k, names[k])
  }

  /** Segment `k` of what is kept is the name that leads there and is never left again. */
  lemma {:induction false} KeptNames(raw: seq<string>)
    requires (forall p :: p in raw ==> Plain(p)) && Walk(raw, []).Ok?
    ensures |Walk(raw, []).value| == Depth(raw) && EachStands(raw, Walk(raw, []).value)
    decreases |raw|
  {
    hide Walk, SegmentProblem, Depth, StandsAt, EachStands;
    WalkAnswer(raw);
    if raw == [] {
      NoSteps();
      NothingStands();
    } else {
      var init, last := raw[..|raw| - 1], raw[|raw| - 1];
      assert raw == init + [last];
      WalkLast(init, last);
      KeptNames(init);
      LastStands(init, last, Walk(init, []).value, Walk(raw, []).value);
    }
  }

  lemma NothingStands()
    ensures EachStands([], [])
  {
  }

  lemma LastStands(init: seq<string>, last: string, before: seq<string>, kept: seq<string>)
    requires EachStands(init, before) && |before| == Depth(init) && |kept| == Depth(init + [last])
    requires kept == before || (|before| > 0 && kept == before[..|before| - 1]) || (Named(last) && kept == before + [last])
    ensures EachStands(init + [last], kept)
  {
    hide Depth, Stands;
    forall k | 0 <= k < |kept| ensures Stands(init + [last], k, kept[k]) {
      if k == |before| {
        NewStands(init, last);
      } else {
        assert kept[k] == before[k];
        StandsOn(init, last, k, before[k]);
      }
    }
  }

  lemma NewStands(init: seq<string>, last: string)
    requires Named(last)
    ensures Stands(init + [last], Depth(init), last)
  {
    OneMore(init, last);
    assert (init + [last])[..|init|] == init && (init + [last])[|init|] == last;
    assert StandsAt(init + [last], Depth(init), |init|);
  }

  lemma StandsOn(init: seq<string>, last: string, k: int, name: string)
    requires Stands(init, k, name) && Depth(init + [last]) > k
    ensures Stands(init + [last], k, name)
  {
    hide Depth;
    var i :| StandsAt(init, k, i) && init[i] == name;
    var raw := init + [last];
    assert raw[..i] == init[..i] && raw[i] == init[i];
    forall j | i < j <= |raw| ensures Depth(raw[..j]) > k {
      if j <= |init| { assert raw[..j] == init[..j]; } else { assert raw[..j] == raw; }
    }
    assert StandsAt(raw, k, i);
  }

  /**
   * What an accepted spelling is an identity for: at each depth the last name to lead there, joined; the
   * key is that spelling in lower case.
   */
  lemma ValueIs(input: string)
    requires Canonical(input).Ok?
    ensures var v, raw, names := Canonical(input).value, Pieces(input), SegmentsOf(input);
            && |names| == Depth(raw) > 0 && EachStands(raw, names)
            && v.key == Lower(Join(names)) && v.path == Join(names) + (if v.directory then "/" else "")
  {
    hide Walk, Depth, Lower, SegmentProblem, StandsAt, EachStands, Spelled, SoundUpTo, Split, Join;
    AcceptedIff(input);
    PlainPieces(input);
    KeptNames(Pieces(input));
    AcceptedSegments(input);
    SpelledIs(SegmentsOf(input), Canonical(input).value.directory);
  }

  /** It names a directory if and only if the spelling ends in a separator, or in one or two dots after one. */
  lemma DirectoryIff(input: string)
    requires Canonical(input).Ok?
    ensures var n := |input|;
            Canonical(input).value.directory <==>
              || Separator(input[n - 1])
              || (n >= 2 && input[n - 1] == '.' && Separator(input[n - 2]))
              || (n >= 3 && input[n - 1] == '.' && input[n - 2] == '.' && Separator(input[n - 3]))
  {
    hide Walk, SegmentProblem, Split;
    LastPiece(Slashed(input));
    NotDotsAlone(input);
    hide Join, Lower;
  }

  lemma SpelledIs(segments: seq<string>, directory: bool)
    requires segments != []
    ensures Spelled(segments, directory).key == Lower(Join(segments))
    ensures Spelled(segments, directory).path == Join(segments) + (if directory then "/" else "")
  {
    assert Join(segments) + "" == Join(segments);
  }

  /** The last piece is empty, or one or two dots, exactly when the text ends so. */
  lemma {:induction false} LastPiece(s: string)
    ensures var last, n := Split(s)[|Split(s)| - 1], |s|;
            && (last == "" <==> s == "" || s[n - 1] == '/')
            && (last == "." <==> s == "." || (n >= 2 && s[n - 1] == '.' && s[n - 2] == '/'))
            && (last == ".." <==> s == ".." || (n >= 3 && s[n - 1] == '.' && s[n - 2] == '.' && s[n - 3] == '/'))
  {
    if '/' in s {
      var i := LastSlash(s);
      var a, b := s[..i], s[i + 1..];
      assert s == a + "/" + b;
      SplitConcat(a, b);
      SplitPlain(b);
      assert Split(s) == Split(a) + [b];
    } else {
      SplitPlain(s);
    }
  }

  lemma {:induction false} LastSlash(s: string) returns (i: nat)
    requires '/' in s
    ensures i < |s| && s[i] == '/' && '/' !in s[i + 1..]
  {
    if s[|s| - 1] == '/' {
      i := |s| - 1;
    } else {
      var init := s[..|s| - 1];
      assert s == init + [s[|s| - 1]];
      i := LastSlash(init);
      assert s[i + 1..] == init[i + 1..] + [s[|s| - 1]];
    }
  }

  lemma NotDotsAlone(input: string)
    requires Canonical(input).Ok?
    ensures Slashed(input) != "." && Slashed(input) != ".."
  {
    SplitPlain(".");
    SplitPlain("..");
    assert Walk(["."], []) == Walk([], []) by { assert ["."][1..] == []; }
    assert Walk([".."], []) == Err(Escapes);
  }
}
