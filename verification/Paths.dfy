/** Repository path identity: one canonical spelling and one comparison key per path. */
module Paths {
  import opened Text

  datatype Refusal =
    | Empty | TooLong | ControlOrNonAscii | Reserved | Absolute
    | Escapes | OuterSpaces | TrailingDot | Device | ShortName | Root

  datatype CanonicalPath = CanonicalPath(path: string, key: string, directory: bool)

  const MAX_PATH_INPUT: nat := 1024

  // --- one path ------------------------------------------------------------------

  predicate Printable(c: char) {
    ' ' <= c <= '~'
  }

  predicate ReservedChar(c: char) {
    c in "<>:\"|?*"
  }

  function Slashed(s: string): (r: string)
    ensures |r| == |s|
  {
    seq(|s|, i requires 0 <= i < |s| => if s[i] == '\\' then '/' else s[i])
  }

  function Stem(s: string): string {
    if s == "" || s[0] == '.' then "" else [s[0]] + Stem(s[1..])
  }

  predicate IsDevice(segment: string) {
    var stem := Lower(Stem(segment));
    || stem in ["con", "prn", "aux", "nul", "conin$", "conout$"]
    || (|stem| == 4 && stem[..3] in ["com", "lpt"] && IsDigit(stem[3]))
  }

  predicate HasShortName(segment: string) {
    exists i :: 0 <= i < |segment| - 1 && segment[i] == '~' && IsDigit(segment[i + 1])
  }

  function SegmentProblem(segment: string): Option<Refusal> {
    if Trim(segment) != segment then Some(OuterSpaces)
    else if segment != "" && segment[|segment| - 1] == '.' then Some(TrailingDot)
    else if IsDevice(segment) then Some(Device)
    else if HasShortName(segment) then Some(ShortName)
    else None
  }

  /** Resolves the remaining raw segments on top of those already kept. */
  function Walk(raw: seq<string>, kept: seq<string>): Result<seq<string>, Refusal>
    decreases |raw|
  {
    if raw == [] then Ok(kept)
    else if raw[0] == "" || raw[0] == "." then Walk(raw[1..], kept)
    else if raw[0] == ".." then
      if kept == [] then Err(Escapes) else Walk(raw[1..], kept[..|kept| - 1])
    else match SegmentProblem(raw[0])
      case Some(why) => Err(why)
      case None => Walk(raw[1..], kept + [raw[0]])
  }

  predicate DirectoryMark(segment: string) {
    segment == "" || segment == "." || segment == ".."
  }

  function CharProblem(input: string): Option<Refusal> {
    if input == "" then Some(Empty)
    else if |input| > MAX_PATH_INPUT then Some(TooLong)
    else if exists i :: 0 <= i < |input| && !Printable(input[i]) then Some(ControlOrNonAscii)
    else if exists i :: 0 <= i < |input| && ReservedChar(input[i]) then Some(Reserved)
    else if Slashed(input)[0] == '/' then Some(Absolute)
    else None
  }

  function Spelled(segments: seq<string>, directory: bool): CanonicalPath
    requires segments != []
  {
    var joined := Join(segments);
    CanonicalPath(if directory then joined + "/" else joined, Lower(joined), directory)
  }

  /** One repository path identity, or the reason the spelling is refused. */
  function Canonical(input: string): Result<CanonicalPath, Refusal> {
    match CharProblem(input)
    case Some(why) => Err(why)
    case None =>
      var raw := Split(Slashed(input));
      match Walk(raw, [])
      case Err(why) => Err(why)
      case Ok(segments) =>
        if segments == [] then Err(Root)
        else Ok(Spelled(segments, DirectoryMark(raw[|raw| - 1])))
  }

  /** The loop over the raw segments, in the form it is written. */
  method CanonicalizePath(input: string) returns (r: Result<CanonicalPath, Refusal>)
    ensures r == Canonical(input)
  {
    var problem := CharProblem(input);
    if problem.Some? { return Err(problem.value); }
    var raw := Split(Slashed(input));
    var segments: seq<string> := [];
    for i := 0 to |raw|
      invariant Walk(raw[i..], segments) == Walk(raw, [])
    {
      var segment := raw[i];
      assert raw[i..][1..] == raw[i + 1..];
      if segment == "" || segment == "." { continue; }
      if segment == ".." {
        if segments == [] { return Err(Escapes); }
        segments := segments[..|segments| - 1];
        continue;
      }
      var why := SegmentProblem(segment);
      if why.Some? { return Err(why.value); }
      segments := segments + [segment];
    }
    if segments == [] { return Err(Root); }
    r := Ok(Spelled(segments, DirectoryMark(raw[|raw| - 1])));
  }

  // --- what an accepted path looks like --------------------------------------------

  predicate GoodSegment(s: string) {
    && s != "" && s != "." && s != ".."
    && '/' !in s
    && SegmentProblem(s).None?
  }

  ghost predicate AllGood(segments: seq<string>) {
    forall s :: s in segments ==> GoodSegment(s)
  }

  predicate PlainChar(c: char) {
    Printable(c) && !ReservedChar(c) && c != '\\'
  }

  ghost predicate Plain(s: string) {
    forall i :: 0 <= i < |s| ==> PlainChar(s[i])
  }

  /** Characters plus one separator per segment. */
  function Extent(segments: seq<string>): nat {
    if segments == [] then 0 else |segments[0]| + 1 + Extent(segments[1..])
  }

  lemma {:induction false} ExtentConcat(a: seq<string>, b: seq<string>)
    ensures Extent(a + b) == Extent(a) + Extent(b)
  {
    if a == [] {
      assert a + b == b;
    } else {
      assert (a + b)[1..] == a[1..] + b;
      ExtentConcat(a[1..], b);
    }
  }

  lemma {:induction false} JoinExtent(segments: seq<string>)
    requires segments != []
    ensures |Join(segments)| == Extent(segments) - 1
  {
    if |segments| > 1 {
      JoinExtent(segments[1..]);
    }
  }

  lemma {:induction false} JoinPlain(segments: seq<string>)
    requires segments != [] && forall s :: s in segments ==> Plain(s)
    ensures Plain(Join(segments))
  {
    assert segments[0] in segments;
    if |segments| > 1 {
      JoinPlain(segments[1..]);
    }
  }

  lemma {:induction false} SplitPlainPieces(s: string)
    requires Plain(s)
    ensures forall p :: p in Split(s) ==> Plain(p)
  {
    if s != "" {
      var rest := Split(s[1..]);
      SplitPlainPieces(s[1..]);
      assert rest[0] in rest;
      assert forall p :: p in rest[1..] ==> p in rest;
    }
  }

  /** What the walk keeps: good segments of its input, never longer than it. */
  lemma {:induction false} WalkKeeps(raw: seq<string>, kept: seq<string>)
    requires Walk(raw, kept).Ok?
    requires AllGood(kept) && forall s :: s in raw ==> '/' !in s
    ensures var r := Walk(raw, kept).value;
            && AllGood(r)
            && (forall s :: s in r ==> s in kept || s in raw)
            && Extent(r) + (if raw != [] && DirectoryMark(raw[|raw| - 1]) then 1 else 0)
               <= Extent(kept) + Extent(raw)
    decreases |raw|
  {
    hide SegmentProblem;
    if raw != [] {
      var rest := raw[1..];
      if raw[0] == "" || raw[0] == "." {
        WalkKeeps(rest, kept);
      } else if raw[0] == ".." {
        var shorter := kept[..|kept| - 1];
        assert kept == shorter + [kept[|kept| - 1]];
        ExtentConcat(shorter, [kept[|kept| - 1]]);
        WalkKeeps(rest, shorter);
      } else {
        ExtentConcat(kept, [raw[0]]);
        WalkKeeps(rest, kept + [raw[0]]);
      }
    }
  }

  lemma {:induction false} WalkConcat(a: seq<string>, b: seq<string>, kept: seq<string>)
    ensures Walk(a + b, kept) ==
            match Walk(a, kept) case Err(why) => Err(why) case Ok(k) => Walk(b, k)
    decreases |a|
  {
    if a == [] {
      assert a + b == b;
    } else {
      assert (a + b)[1..] == a[1..] + b;
      if a[0] == "" || a[0] == "." {
        WalkConcat(a[1..], b, kept);
      } else if a[0] == ".." {
        if kept != [] { WalkConcat(a[1..], b, kept[..|kept| - 1]); }
      } else if SegmentProblem(a[0]).None? {
        WalkConcat(a[1..], b, kept + [a[0]]);
      }
    }
  }

  lemma {:induction false} WalkGood(segments: seq<string>, kept: seq<string>)
    requires AllGood(segments)
    ensures Walk(segments, kept) == Ok(kept + segments)
    decreases |segments|
  {
    if segments == [] {
      assert kept + segments == kept;
    } else {
      assert segments[0] in segments;
      WalkGood(segments[1..], kept + [segments[0]]);
      assert kept + [segments[0]] + segments[1..] == kept + segments;
    }
  }

  lemma {:induction false} JoinLast(segments: seq<string>)
    requires segments != [] && AllGood(segments)
    ensures Join(segments) != "" && Join(segments)[|Join(segments)| - 1] != '/'
  {
    var last := segments[|segments| - 1];
    assert last in segments && last[|last| - 1] in last;
    if |segments| > 1 {
      JoinLast(segments[1..]);
    }
  }

  /** The segments an accepted spelling resolves to. */
  function SegmentsOf(input: string): seq<string>
    requires Canonical(input).Ok?
  {
    Walk(Split(Slashed(input)), []).value
  }

  lemma SlashedPlain(input: string)
    requires CharProblem(input).None?
    ensures Plain(Slashed(input))
  {
    assert forall i :: 0 <= i < |input| ==> Printable(input[i]) && !ReservedChar(input[i]);
  }

  lemma AcceptedSegments(input: string)
    requires Canonical(input).Ok?
    ensures var segments := SegmentsOf(input);
            && segments != [] && AllGood(segments) && (forall s :: s in segments ==> Plain(s))
            && |Canonical(input).value.path| <= |input|
            && Canonical(input).value == Spelled(segments, Canonical(input).value.directory)
  {
    hide SegmentProblem, Lower;
    var slashed := Slashed(input);
    var raw := Split(slashed);
    SlashedPlain(input);
    SplitPlainPieces(slashed);
    WalkKeeps(raw, []);
    JoinSplit(slashed);
    JoinExtent(raw);
    JoinExtent(SegmentsOf(input));
  }

  lemma PlainAccepted(path: string)
    requires Plain(path) && path != "" && path[0] != '/' && |path| <= MAX_PATH_INPUT
    ensures Slashed(path) == path && CharProblem(path).None?
  {
    assert Slashed(path) == path;
  }

  lemma SpelledWalk(segments: seq<string>, directory: bool)
    requires segments != [] && AllGood(segments)
    ensures var raw := Split(Spelled(segments, directory).path);
            Walk(raw, []) == Ok(segments) && DirectoryMark(raw[|raw| - 1]) == directory
  {
    hide SegmentProblem, Lower;
    var joined := Join(segments);
    SplitJoin(segments);
    WalkGood(segments, []);
    assert [] + segments == segments;
    if directory {
      assert joined + "/" == joined + "/" + "";
      SplitConcat(joined, "");
      WalkConcat(segments, [""], []);
      assert [""][1..] == [];
    } else {
      assert segments[|segments| - 1] in segments;
    }
  }

  /** A spelled list of good segments is accepted as exactly itself. */
  lemma SpelledAccepted(segments: seq<string>, directory: bool)
    requires segments != [] && AllGood(segments) && forall s :: s in segments ==> Plain(s)
    requires |Spelled(segments, directory).path| <= MAX_PATH_INPUT
    ensures Canonical(Spelled(segments, directory).path) == Ok(Spelled(segments, directory))
    ensures SegmentsOf(Spelled(segments, directory).path) == segments
  {
    JoinPlain(segments);
    assert segments[0] in segments && segments[0][0] in segments[0];
    PlainAccepted(Spelled(segments, directory).path);
    SpelledWalk(segments, directory);
  }

  /**
   * Canonicalisation is a fixed point: what it returns is accepted again as itself, is no longer
   * than the spelling it came from, and has no empty, dot or dot-dot segment.
   */
  lemma CanonicalFixedPoint(input: string)
    requires Canonical(input).Ok?
    ensures var v := Canonical(input).value;
            && Canonical(v.path) == Ok(v)
            && |v.path| <= |input|
            && (v.directory <==> v.path[|v.path| - 1] == '/')
            && Split(if v.directory then v.path[..|v.path| - 1] else v.path) == SegmentsOf(input)
            && (forall s :: s in SegmentsOf(input) ==> !DirectoryMark(s) && '\\' !in s)
  {
    AcceptedSegments(input);
    var v := Canonical(input).value;
    var segments := SegmentsOf(input);
    SpelledAccepted(segments, v.directory);
    SplitJoin(segments);
    JoinLast(segments);
    assert v.directory ==> v.path[..|v.path| - 1] == Join(segments);
    forall s | s in segments ensures !DirectoryMark(s) && '\\' !in s {
      assert Plain(s);
    }
  }

  // --- respellings of one path -----------------------------------------------------

  /** Backslashes and slashes separate alike. */
  lemma SeparatorsAgree(input: string)
    ensures Canonical(Slashed(input)) == Canonical(input)
  {
    hide SegmentProblem, Lower, Walk, Split;
    var slashed := Slashed(input);
    assert Slashed(slashed) == slashed;
    assert forall i :: 0 <= i < |input| ==> (Printable(slashed[i]) <==> Printable(input[i]));
    assert forall i :: 0 <= i < |input| ==> (ReservedChar(slashed[i]) <==> ReservedChar(input[i]));
  }

  lemma DetourChars(a: string, detour: string, b: string)
    requires Plain(detour)
    requires a != "" && |a + "/" + detour + "/" + b| <= MAX_PATH_INPUT
    ensures CharProblem(a + "/" + detour + "/" + b) == CharProblem(a + "/" + b)
  {
    var long, short := a + "/" + detour + "/" + b, a + "/" + b;
    assert forall c :: c in detour ==> PlainChar(c);
    forall c ensures c in long <==> c in short || c in detour {
      assert c in long <==> c in a || c == '/' || c in detour || c in b;
      assert c in short <==> c in a || c == '/' || c in b;
    }
    SameCharProblem(long, short);
  }

  lemma DetourSplit(a: string, detour: string, b: string)
    requires Plain(detour)
    ensures Split(Slashed(a + "/" + detour + "/" + b)) == Split(Slashed(a)) + (Split(detour) + Split(Slashed(b)))
    ensures Split(Slashed(a + "/" + b)) == Split(Slashed(a)) + Split(Slashed(b))
  {
    var sa, sb := Slashed(a), Slashed(b);
    assert Slashed(detour) == detour;
    assert Slashed(a + "/" + detour + "/" + b) == sa + "/" + (detour + "/" + sb);
    assert Slashed(a + "/" + b) == sa + "/" + sb;
    SplitConcat(sa, detour + "/" + sb);
    SplitConcat(detour, sb);
    SplitConcat(sa, sb);
  }

  /** An empty, dot, or enter-and-leave detour between two parts does not make a second path. */
  lemma DetoursAgree(a: string, detour: string, segment: string, b: string)
    requires detour == "" || detour == "." || detour == segment + "/.."
    requires GoodSegment(segment) && Plain(segment)
    requires a != "" && |a + "/" + detour + "/" + b| <= MAX_PATH_INPUT
    ensures Canonical(a + "/" + detour + "/" + b) == Canonical(a + "/" + b)
  {
    hide *;
    var before, middle, after := Split(Slashed(a)), Split(detour), Split(Slashed(b));
    DetourPlain(detour, segment);
    DetourChars(a, detour, b);
    DetourSplit(a, detour, b);
    DetourPieces(detour, segment);
    WalkDetour(before, middle, segment, after);
    SameResolution(a + "/" + detour + "/" + b, a + "/" + b, before + (middle + after), before + after);
  }

  lemma SameResolution(x: string, y: string, xs: seq<string>, ys: seq<string>)
    requires CharProblem(x) == CharProblem(y)
    requires Split(Slashed(x)) == xs && Split(Slashed(y)) == ys
    requires Walk(xs, []) == Walk(ys, [])
    requires xs != [] && ys != [] && xs[|xs| - 1] == ys[|ys| - 1]
    ensures Canonical(x) == Canonical(y)
  {
    hide SegmentProblem, Lower, Walk, Split, Join, Slashed, CharProblem;
  }

  lemma DetourPlain(detour: string, segment: string)
    requires Plain(segment)
    requires detour == "" || detour == "." || detour == segment + "/.."
    ensures Plain(detour)
  {
  }

  lemma DetourPieces(detour: string, segment: string)
    requires GoodSegment(segment)
    requires detour == "" || detour == "." || detour == segment + "/.."
    ensures Split(detour) == [""] || Split(detour) == ["."] || Split(detour) == [segment, ".."]
  {
    if detour == segment + "/.." {
      assert detour == segment + "/" + "..";
      SplitConcat(segment, "..");
      SplitPlain(segment);
      SplitPlain("..");
    } else {
      SplitPlain(detour);
    }
  }

  lemma WalkDetour(before: seq<string>, middle: seq<string>, segment: string, after: seq<string>)
    requires GoodSegment(segment)
    requires middle == [""] || middle == ["."] || middle == [segment, ".."]
    ensures Walk(before + (middle + after), []) == Walk(before + after, [])
  {
    WalkConcat(before, middle + after, []);
    WalkConcat(before, after, []);
    if Walk(before, []).Ok? {
      var kept := Walk(before, []).value;
      WalkConcat(middle, after, kept);
      DetourWalk(middle, segment, kept);
    }
  }

  lemma DetourWalk(middle: seq<string>, segment: string, kept: seq<string>)
    requires GoodSegment(segment)
    requires middle == [""] || middle == ["."] || middle == [segment, ".."]
    ensures Walk(middle, kept) == Ok(kept)
  {
    if middle == [segment, ".."] {
      assert middle[1..] == [".."];
      assert Walk([".."], kept + [segment]) == Walk([], (kept + [segment])[..|kept|]);
      assert (kept + [segment])[..|kept|] == kept;
    } else {
      assert middle[1..] == [];
    }
  }

  lemma SameCharProblem(x: string, y: string)
    requires x != "" && y != "" && |x| <= MAX_PATH_INPUT && |y| <= MAX_PATH_INPUT
    requires x[0] == y[0]
    requires forall c :: c in x && !Printable(c) <==> c in y && !Printable(c)
    requires forall c :: c in x && ReservedChar(c) <==> c in y && ReservedChar(c)
    ensures CharProblem(x) == CharProblem(y)
  {
    assert (exists i :: 0 <= i < |x| && !Printable(x[i])) <==> (exists c :: c in x && !Printable(c));
    assert (exists i :: 0 <= i < |y| && !Printable(y[i])) <==> (exists c :: c in y && !Printable(c));
    assert (exists i :: 0 <= i < |x| && ReservedChar(x[i])) <==> (exists c :: c in x && ReservedChar(c));
    assert (exists i :: 0 <= i < |y| && ReservedChar(y[i])) <==> (exists c :: c in y && ReservedChar(c));
  }

  function LowerAll(segments: seq<string>): (r: seq<string>)
    ensures |r| == |segments|
  {
    seq(|segments|, i requires 0 <= i < |segments| => Lower(segments[i]))
  }

  lemma TrimmedEnds(s: string)
    ensures Trim(s) == s <==> s == "" || (!IsSpace(s[0]) && !IsSpace(s[|s| - 1]))
  {
  }

  lemma {:induction false} StemLower(s: string)
    ensures Stem(Lower(s)) == Lower(Stem(s))
  {
    if s != "" {
      StemLower(s[1..]);
      assert Lower(s)[1..] == Lower(s[1..]);
    }
  }

  lemma LowerIdempotent(s: string)
    ensures Lower(Lower(s)) == Lower(s)
  {
  }

  lemma TrimmedLower(s: string)
    ensures Trim(Lower(s)) == Lower(s) <==> Trim(s) == s
  {
    TrimmedEnds(s);
    TrimmedEnds(Lower(s));
  }

  lemma DeviceLower(s: string)
    ensures IsDevice(Lower(s)) == IsDevice(s)
  {
    StemLower(s);
    LowerIdempotent(Stem(s));
  }

  lemma ShortNameLower(s: string)
    ensures HasShortName(Lower(s)) == HasShortName(s)
  {
    var small := Lower(s);
    assert forall i :: 0 <= i < |s| ==> (small[i] == '~' <==> s[i] == '~') && (IsDigit(small[i]) <==> IsDigit(s[i]));
    if HasShortName(s) {
      var i :| 0 <= i < |s| - 1 && s[i] == '~' && IsDigit(s[i + 1]);
      assert small[i] == '~' && IsDigit(small[i + 1]);
    }
    if HasShortName(small) {
      var i :| 0 <= i < |small| - 1 && small[i] == '~' && IsDigit(small[i + 1]);
      assert s[i] == '~' && IsDigit(s[i + 1]);
    }
  }

  lemma MarkLower(s: string)
    ensures Lower(s) == "" <==> s == ""
    ensures Lower(s) == "." <==> s == "."
    ensures Lower(s) == ".." <==> s == ".."
  {
    assert forall i :: 0 <= i < |s| ==> (Lower(s)[i] == '.' <==> s[i] == '.');
  }

  lemma SegmentProblemLower(s: string)
    ensures SegmentProblem(Lower(s)) == SegmentProblem(s)
  {
    TrimmedLower(s);
    DeviceLower(s);
    ShortNameLower(s);
    assert s != "" ==> (Lower(s)[|s| - 1] == '.' <==> s[|s| - 1] == '.');
  }

  lemma {:induction false} WalkLower(raw: seq<string>, kept: seq<string>)
    ensures Walk(LowerAll(raw), LowerAll(kept)) ==
            match Walk(raw, kept) case Err(why) => Err(why) case Ok(r) => Ok(LowerAll(r))
    decreases |raw|
  {
    if raw != [] {
      SegmentProblemLower(raw[0]);
      MarkLower(raw[0]);
      assert LowerAll(raw)[1..] == LowerAll(raw[1..]);
      if raw[0] == "" || raw[0] == "." {
        WalkLower(raw[1..], kept);
      } else if raw[0] == ".." {
        if kept != [] {
          assert LowerAll(kept)[..|kept| - 1] == LowerAll(kept[..|kept| - 1]);
          WalkLower(raw[1..], kept[..|kept| - 1]);
        }
      } else if SegmentProblem(raw[0]).None? {
        assert LowerAll(kept) + [Lower(raw[0])] == LowerAll(kept + [raw[0]]);
        WalkLower(raw[1..], kept + [raw[0]]);
      }
    }
  }

  lemma {:induction false} JoinLower(segments: seq<string>)
    requires segments != []
    ensures Join(LowerAll(segments)) == Lower(Join(segments))
  {
    if |segments| > 1 {
      JoinLower(segments[1..]);
      assert LowerAll(segments)[1..] == LowerAll(segments[1..]);
      LowerConcat(segments[0] + "/", Join(segments[1..]));
      LowerConcat(segments[0], "/");
      assert Lower("/") == "/";
    }
  }

  /** Letter case does not make a second path, nor does it change a refusal. */
  lemma LetterCaseAgrees(input: string)
    ensures match Canonical(input)
            case Err(why) => Canonical(Lower(input)) == Err(why)
            case Ok(v) => Canonical(Lower(input)) == Ok(CanonicalPath(Lower(v.path), v.key, v.directory))
  {
    hide SegmentProblem, Walk, Join;
    CharProblemLower(input);
    if CharProblem(input).None? {
      var raw := Split(Slashed(input));
      SplitLower(Slashed(input));
      assert Split(Slashed(Lower(input))) == LowerAll(raw);
      WalkLower(raw, []);
      MarkLower(raw[|raw| - 1]);
      if Canonical(input).Ok? {
        SpelledLower(Walk(raw, []).value, DirectoryMark(raw[|raw| - 1]));
      }
    }
  }

  lemma CharProblemLower(input: string)
    ensures CharProblem(Lower(input)) == CharProblem(input)
    ensures Slashed(Lower(input)) == Lower(Slashed(input))
  {
    var small := Lower(input);
    assert forall i :: 0 <= i < |input| ==> (Printable(small[i]) <==> Printable(input[i]));
    assert forall i :: 0 <= i < |input| ==> (ReservedChar(small[i]) <==> ReservedChar(input[i]));
    assert Slashed(small) == Lower(Slashed(input));
  }

  lemma SpelledLower(segments: seq<string>, directory: bool)
    requires segments != []
    ensures var v := Spelled(segments, directory);
            Spelled(LowerAll(segments), directory) == CanonicalPath(Lower(v.path), v.key, v.directory)
  {
    JoinLower(segments);
    LowerConcat(Join(segments), "/");
    LowerIdempotent(Join(segments));
    assert Lower("/") == "/";
  }
}
