/** String operations of the host language that the modelled code relies on. */
module Text {

  datatype Result<+T, +E> = Ok(value: T) | Err(error: E)
  datatype Option<+T> = None | Some(value: T)

  /** Drops the elements satisfying `space` from both ends. */
  function TrimBy<T>(s: seq<T>, space: T -> bool): (r: seq<T>)
    ensures |r| <= |s|
    ensures r != [] ==> !space(r[0]) && !space(r[|r| - 1])
    ensures forall c :: c in r ==> c in s
    decreases |s|
  {
    if s == [] then s
    else if space(s[0]) then TrimBy(s[1..], space)
    else if space(s[|s| - 1]) then TrimBy(s[..|s| - 1], space)
    else s
  }

  lemma TrimIdempotent<T>(s: seq<T>, space: T -> bool)
    ensures TrimBy(TrimBy(s, space), space) == TrimBy(s, space)
  {
  }

  predicate IsSpace(c: char) {
    || '\t' <= c <= '\r'
    || '\U{2000}' <= c <= '\U{200A}'
    || c in [' ', '\U{A0}', '\U{1680}', '\U{2028}', '\U{2029}', '\U{202F}', '\U{205F}', '\U{3000}', '\U{FEFF}']
  }

  function Trim(s: string): string {
    TrimBy(s, c => IsSpace(c))
  }

  predicate NonEmpty(s: string) {
    Trim(s) != ""
  }

  function LowerChar(c: char): (r: char)
    ensures r == '/' <==> c == '/'
  {
    if 'A' <= c <= 'Z' then c + 32 as char else c
  }

  function Lower(s: string): (r: string)
    ensures |r| == |s|
    ensures forall i :: 0 <= i < |s| ==> r[i] == LowerChar(s[i])
  {
    seq(|s|, i requires 0 <= i < |s| => LowerChar(s[i]))
  }

  lemma LowerConcat(a: string, b: string)
    ensures Lower(a + b) == Lower(a) + Lower(b)
  {
  }

  predicate IsDigit(c: char) {
    '0' <= c <= '9'
  }

  /** The pieces of `s` between its slashes: one more piece than there are slashes. */
  function Split(s: string): (r: seq<string>)
    ensures |r| >= 1
    ensures forall p :: p in r ==> '/' !in p
  {
    if s == "" then [""]
    else
      var rest := Split(s[1..]);
      if s[0] == '/' then [""] + rest
      else
        assert forall p :: p in rest[1..] ==> p in rest;
        [[s[0]] + rest[0]] + rest[1..]
  }

  function Join(pieces: seq<string>): string
    requires |pieces| >= 1
  {
    if |pieces| == 1 then pieces[0] else pieces[0] + "/" + Join(pieces[1..])
  }

  lemma {:induction false} JoinSplit(s: string)
    ensures Join(Split(s)) == s
  {
    if s != "" {
      var rest := Split(s[1..]);
      JoinSplit(s[1..]);
      if s[0] == '/' {
        assert Split(s)[1..] == rest;
      } else if |rest| > 1 {
        assert Split(s)[1..] == rest[1..];
      }
    }
  }

  lemma {:induction false} SplitPlain(s: string)
    requires '/' !in s
    ensures Split(s) == [s]
  {
    if s != "" {
      SplitPlain(s[1..]);
      assert [s[0]] + s[1..] == s;
    }
  }

  lemma {:induction false} SplitConcat(a: string, b: string)
    ensures Split(a + "/" + b) == Split(a) + Split(b)
  {
    var whole := a + "/" + b;
    if a == "" {
      assert whole[1..] == b;
    } else {
      assert whole[1..] == a[1..] + "/" + b;
      SplitConcat(a[1..], b);
    }
  }

  lemma {:induction false} SplitJoin(pieces: seq<string>)
    requires |pieces| >= 1
    requires forall p :: p in pieces ==> '/' !in p
    ensures Split(Join(pieces)) == pieces
  {
    SplitPlain(pieces[0]);
    if |pieces| > 1 {
      SplitConcat(pieces[0], Join(pieces[1..]));
      SplitJoin(pieces[1..]);
    }
  }

  lemma {:induction false} SplitLower(s: string)
    ensures |Split(Lower(s))| == |Split(s)|
    ensures forall i :: 0 <= i < |Split(s)| ==> Split(Lower(s))[i] == Lower(Split(s)[i])
  {
    if s != "" {
      SplitLower(s[1..]);
      assert Lower(s)[1..] == Lower(s[1..]);
      assert Lower(s)[0] == LowerChar(s[0]);
      var rest := Split(s[1..]);
      assert s[0] != '/' ==> Lower([s[0]] + rest[0]) == [LowerChar(s[0])] + Lower(rest[0]);
      hide LowerChar, Lower;
    }
  }

  /** The host's `<` on strings: by code unit, a proper prefix first. */
  predicate Less(a: string, b: string) {
    b != "" && (a == "" || a[0] < b[0] || (a[0] == b[0] && Less(a[1..], b[1..])))
  }

  lemma LessIrreflexive(a: string)
    ensures !Less(a, a)
  {
  }

  lemma LessTransitive(a: string, b: string, c: string)
    requires Less(a, b) && Less(b, c)
    ensures Less(a, c)
  {
  }

  lemma {:induction false} LessTotal(a: string, b: string)
    ensures Less(a, b) || a == b || Less(b, a)
  {
    if a != "" && b != "" && a[0] == b[0] {
      LessTotal(a[1..], b[1..]);
      assert a == [a[0]] + a[1..] && b == [b[0]] + b[1..];
    }
  }

  ghost predicate StrictlySorted(keys: seq<string>) {
    forall i, j :: 0 <= i < j < |keys| ==> Less(keys[i], keys[j])
  }

  lemma SomeElement<T>(a: seq<T>, b: seq<T>)
    requires forall x :: x in a ==> x in b
    ensures a != [] ==> b != []
  {
    if a != [] {
      assert a[0] in b;
    }
  }

  /** A strictly sorted list is determined by its elements. */
  lemma {:induction false} SortedUnique(a: seq<string>, b: seq<string>)
    requires StrictlySorted(a) && StrictlySorted(b)
    requires forall k :: k in a <==> k in b
    ensures a == b
  {
    SomeElement(a, b);
    SomeElement(b, a);
    if a != [] {
      assert a[0] in b;
      assert b[0] in a;
      LessIrreflexive(a[0]);
      if a[0] != b[0] {
        LessTransitive(a[0], b[0], a[0]);
      }
      forall k ensures k in a[1..] <==> k in b[1..] {
        LessIrreflexive(k);
        if k in a[1..] { assert k in a; }
        if k in b[1..] { assert k in b; }
      }
      SortedUnique(a[1..], b[1..]);
    }
  }
}
