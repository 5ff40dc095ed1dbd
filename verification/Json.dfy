/** JSON text as JavaScript prints and reads it, over UTF-16 code units. */
module Json {
  import opened Text

  /** One UTF-16 code unit; surrogates are units like any other. */
  type Unit = n: int | 0 <= n < 0x10000

  type Units = seq<Unit>

  datatype Value =
    | Null
    | Bool(b: bool)
    | Number(n: nat)
    | String(s: Units)
    | Array(items: seq<Value>)
    | Object(fields: seq<Field>)

  datatype Field = Field(name: Units, value: Value)

  datatype Parsed<T> = Parsed(value: T, rest: Units)

  // --- strings ------------------------------------------------------------------------------

  predicate HighSurrogate(u: Unit) { 0xD800 <= u < 0xDC00 }

  predicate LowSurrogate(u: Unit) { 0xDC00 <= u < 0xE000 }

  function HexDigit(n: nat): Unit
    requires n < 16
  {
    if n < 10 then 48 + n else 87 + n
  }

  function FromHex(u: Unit): Option<nat> {
    if 48 <= u <= 57 then Some(u - 48)
    else if 97 <= u <= 102 then Some(u - 87)
    else if 65 <= u <= 70 then Some(u - 55)
    else None
  }

  const QUOTE: Unit := 34
  const BACKSLASH: Unit := 92

  /** `\uXXXX`, lower case. */
  function HexEscape(u: Unit): (r: Units)
    ensures |r| == 6
  {
    var a := u / 16;
    var b := a / 16;
    [BACKSLASH, 117, HexDigit(b / 16), HexDigit(b % 16), HexDigit(a % 16), HexDigit(u % 16)]
  }

  /** The letter of a two-character escape. */
  function ShortEscape(u: Unit): Option<Unit> {
    if u == QUOTE || u == BACKSLASH then Some(u)
    else if u == 8 then Some(98)
    else if u == 9 then Some(116)
    else if u == 10 then Some(110)
    else if u == 12 then Some(102)
    else if u == 13 then Some(114)
    else None
  }

  predicate NeedsHex(u: Unit) {
    u < 32 || HighSurrogate(u) || LowSurrogate(u)
  }

  function EscapeUnit(u: Unit): (r: Units)
    ensures 1 <= |r| <= 6
  {
    if ShortEscape(u).Some? then [BACKSLASH, ShortEscape(u).value]
    else if NeedsHex(u) then HexEscape(u)
    else [u]
  }

  /** A surrogate pair is printed as it is; a lone surrogate is escaped. */
  predicate Paired(s: Units) {
    |s| >= 2 && HighSurrogate(s[0]) && LowSurrogate(s[1])
  }

  function Escape(s: Units): Units {
    if s == [] then []
    else if Paired(s) then s[..2] + Escape(s[2..])
    else EscapeUnit(s[0]) + Escape(s[1..])
  }

  function Quoted(s: Units): Units {
    [QUOTE] + Escape(s) + [QUOTE]
  }

  function UnescapeLetter(u: Unit): Option<Unit> {
    if u == QUOTE || u == BACKSLASH || u == 47 then Some(u)
    else if u == 98 then Some(8)
    else if u == 116 then Some(9)
    else if u == 110 then Some(10)
    else if u == 102 then Some(12)
    else if u == 114 then Some(13)
    else None
  }

  /** Four hexadecimal digits, in either case. */
  function ReadHex(s: Units): Option<Unit>
    requires |s| >= 4
  {
    if FromHex(s[0]).None? || FromHex(s[1]).None? || FromHex(s[2]).None? || FromHex(s[3]).None? then None
    else
      var n := FromHex(s[0]).value * 4096 + FromHex(s[1]).value * 256 + FromHex(s[2]).value * 16 + FromHex(s[3]).value;
      if n < 0x10000 then Some(n) else None
  }

  /** One unit of a string body, escaped or not. */
  function ParseUnit(s: Units): (r: Option<Parsed<Unit>>)
    ensures r.Some? ==> |r.value.rest| < |s|
  {
    if s == [] || s[0] < 32 || s[0] == QUOTE then None
    else if s[0] != BACKSLASH then Some(Parsed(s[0], s[1..]))
    else if |s| >= 2 && UnescapeLetter(s[1]).Some? then Some(Parsed(UnescapeLetter(s[1]).value, s[2..]))
    else if |s| >= 6 && s[1] == 117 && ReadHex(s[2..6]).Some? then Some(Parsed(ReadHex(s[2..6]).value, s[6..]))
    else None
  }

  /** What follows an opening quote, up to the closing one. */
  function ParseBody(s: Units): (r: Option<Parsed<Units>>)
    ensures r.Some? ==> |r.value.rest| < |s|
  {
    if s != [] && s[0] == QUOTE then Some(Parsed([], s[1..]))
    else
      match ParseUnit(s)
      case None => None
      case Some(unit) =>
        match ParseBody(unit.rest)
        case None => None
        case Some(body) => Some(Parsed([unit.value] + body.value, body.rest))
  }

  // --- numbers --------------------------------------------------------------------------------

  predicate Digit(u: Unit) { 48 <= u <= 57 }

  function DigitOf(n: nat): Unit
    requires n < 10
  {
    48 + n
  }

  function PrintNat(n: nat): (r: Units)
    ensures r != [] && forall i :: 0 <= i < |r| ==> Digit(r[i])
  {
    if n < 10 then [DigitOf(n)] else PrintNat(n / 10) + [DigitOf(n % 10)]
  }

  function Digits(s: Units): (n: nat)
    ensures n <= |s|
    ensures forall i :: 0 <= i < n ==> Digit(s[i])
    ensures n < |s| ==> !Digit(s[n])
  {
    if s == [] || !Digit(s[0]) then 0 else 1 + Digits(s[1..])
  }

  function ReadNat(s: Units): nat
    requires forall i :: 0 <= i < |s| ==> Digit(s[i])
  {
    if s == [] then 0
    else
      var last: int := s[|s| - 1];
      assert Digit(last);
      ReadNat(s[..|s| - 1]) * 10 + (last - 48)
  }

  /** A natural number, without a leading zero. */
  function ParseNat(s: Units): (r: Option<Parsed<nat>>)
    ensures r.Some? ==> |r.value.rest| < |s|
  {
    var n := Digits(s);
    if n == 0 || (n > 1 && s[0] == 48) then None else Some(Parsed(ReadNat(s[..n]), s[n..]))
  }

  // --- values ---------------------------------------------------------------------------------

  function AsciiUnit(ch: char): Unit
    requires ch < 128 as char
  {
    ch as int
  }

  function Ascii(s: string): (r: Units)
    requires forall i :: 0 <= i < |s| ==> s[i] < 128 as char
    ensures |r| == |s| && forall i :: 0 <= i < |s| ==> r[i] == s[i] as int
  {
    if s == "" then [] else [AsciiUnit(s[0])] + Ascii(s[1..])
  }

  const NULL: Units := [110, 117, 108, 108]
  const TRUE: Units := [116, 114, 117, 101]
  const FALSE: Units := [102, 97, 108, 115, 101]

  function Print(v: Value): Units
    decreases v
  {
    match v
    case Null => NULL
    case Bool(b) => if b then TRUE else FALSE
    case Number(n) => PrintNat(n)
    case String(s) => Quoted(s)
    case Array(items) => [91] + PrintItems(items) + [93]
    case Object(fields) => [123] + PrintFields(fields) + [125]
  }

  function PrintItems(items: seq<Value>): Units
    decreases items
  {
    if items == [] then []
    else if |items| == 1 then Print(items[0])
    else Print(items[0]) + [44] + PrintItems(items[1..])
  }

  function PrintField(f: Field): Units
    decreases f
  {
    Quoted(f.name) + [58] + Print(f.value)
  }

  function PrintFields(fields: seq<Field>): Units
    decreases fields
  {
    if fields == [] then []
    else if |fields| == 1 then PrintField(fields[0])
    else PrintField(fields[0]) + [44] + PrintFields(fields[1..])
  }

  predicate Space(u: Unit) { u == 32 || u == 9 || u == 10 || u == 13 }

  function SkipSpace(s: Units): (r: Units)
    ensures |r| <= |s|
  {
    if s != [] && Space(s[0]) then SkipSpace(s[1..]) else s
  }

  predicate StartsWith(s: Units, u: Unit) { s != [] && s[0] == u }

  function ParseValue(s: Units): (r: Option<Parsed<Value>>)
    ensures r.Some? ==> |r.value.rest| < |s|
    decreases |s|, 1
  {
    var t := SkipSpace(s);
    if t == [] then None
    else if t[0] == QUOTE then
      (match ParseBody(t[1..])
       case None => None
       case Some(body) => Some(Parsed(String(body.value), body.rest)))
    else if Digit(t[0]) then
      (match ParseNat(t)
       case None => None
       case Some(n) => Some(Parsed(Number(n.value), n.rest)))
    else if t[0] == 91 then
      if StartsWith(SkipSpace(t[1..]), 93) then Some(Parsed(Array([]), SkipSpace(t[1..])[1..]))
      else (match ParseItems(t[1..])
            case None => None
            case Some(items) => Some(Parsed(Array(items.value), items.rest)))
    else if t[0] == 123 then
      if StartsWith(SkipSpace(t[1..]), 125) then Some(Parsed(Object([]), SkipSpace(t[1..])[1..]))
      else (match ParseFields(t[1..])
            case None => None
            case Some(fields) => Some(Parsed(Object(fields.value), fields.rest)))
    else if NULL <= t then Some(Parsed(Null, t[4..]))
    else if TRUE <= t then Some(Parsed(Bool(true), t[4..]))
    else if FALSE <= t then Some(Parsed(Bool(false), t[5..]))
    else None
  }

  /** The items of an array that has some, through its closing bracket. */
  function ParseItems(s: Units): (r: Option<Parsed<seq<Value>>>)
    ensures r.Some? ==> |r.value.rest| < |s|
    decreases |s|, 2
  {
    match ParseValue(s)
    case None => None
    case Some(item) =>
      var t := SkipSpace(item.rest);
      if StartsWith(t, 93) then Some(Parsed([item.value], t[1..]))
      else if StartsWith(t, 44) then
        match ParseItems(t[1..])
        case None => None
        case Some(items) => Some(Parsed([item.value] + items.value, items.rest))
      else None
  }

  function ParseField(s: Units): (r: Option<Parsed<Field>>)
    ensures r.Some? ==> |r.value.rest| < |s|
    decreases |s|, 0
  {
    var t := SkipSpace(s);
    if !StartsWith(t, QUOTE) then None
    else
      match ParseBody(t[1..])
      case None => None
      case Some(name) =>
        var u := SkipSpace(name.rest);
        if !StartsWith(u, 58) then None
        else
          match ParseValue(u[1..])
          case None => None
          case Some(value) => Some(Parsed(Field(name.value, value.value), value.rest))
  }

  /** The members of an object that has some, through its closing brace. */
  function ParseFields(s: Units): (r: Option<Parsed<seq<Field>>>)
    ensures r.Some? ==> |r.value.rest| < |s|
    decreases |s|, 2
  {
    match ParseField(s)
    case None => None
    case Some(field) =>
      var t := SkipSpace(field.rest);
      if StartsWith(t, 125) then Some(Parsed([field.value], t[1..]))
      else if StartsWith(t, 44) then
        match ParseFields(t[1..])
        case None => None
        case Some(fields) => Some(Parsed([field.value] + fields.value, fields.rest))
      else None
  }

  /** A whole document: one value and nothing after it. */
  function Parse(s: Units): Option<Value> {
    match ParseValue(s)
    case None => None
    case Some(v) => if SkipSpace(v.rest) == [] then Some(v.value) else None
  }

  // --- reading back what was printed ----------------------------------------------------------------

  lemma Regroup4(a: Units, b: Units, c: Units, d: Units)
    ensures a + b + c + d == a + (b + c + d)
  {
  }

  lemma Regroup(a: Units, b: Units, c: Units, d: Units, e: Units)
    ensures a + b + c + d + e == a + (b + (c + d + e))
  {
  }

  lemma LastOne(a: Units, b: Units, c: Units)
    ensures a + b + c == a + (b + c)
  {
  }

  lemma HeadOff(u: Unit, s: Units)
    ensures ([u] + s)[0] == u && ([u] + s)[1..] == s
  {
  }

  lemma HexBack(u: Unit)
    ensures ReadHex(HexEscape(u)[2..6]) == Some(u)
  {
    hide HexDigit, FromHex;
    var a := u / 16;
    var b := a / 16;
    HexDigitBack(b / 16);
    HexDigitBack(b % 16);
    HexDigitBack(a % 16);
    HexDigitBack(u % 16);
  }

  lemma HexDigitBack(n: nat)
    requires n < 16
    ensures FromHex(HexDigit(n)) == Some(n)
  {
  }

  lemma UnitBack(u: Unit, rest: Units)
    ensures ParseUnit(EscapeUnit(u) + rest) == Some(Parsed(u, rest))
  {
    hide ReadHex, HexEscape, HexDigit;
    var s := EscapeUnit(u) + rest;
    if ShortEscape(u).Some? {
      assert s[2..] == rest;
    } else if NeedsHex(u) {
      HexBack(u);
      HexShape(u);
      assert s[2..6] == HexEscape(u)[2..6] && s[6..] == rest;
    } else {
      assert s[1..] == rest;
    }
  }

  lemma HexShape(u: Unit)
    ensures HexEscape(u)[0] == BACKSLASH && HexEscape(u)[1] == 117
  {
  }

  lemma {:induction false} BodyBack(s: Units, rest: Units)
    ensures ParseBody(Escape(s) + [QUOTE] + rest) == Some(Parsed(s, rest))
    decreases |s|
  {
    hide EscapeUnit, ParseUnit;
    if s == [] {
      assert Escape(s) + [QUOTE] + rest == [QUOTE] + rest;
      HeadOff(QUOTE, rest);
    } else if Paired(s) {
      var tail := Escape(s[2..]) + [QUOTE] + rest;
      BodyBack(s[2..], rest);
      Regroup4(s[..2], Escape(s[2..]), [QUOTE], rest);
      assert s[..2] == [s[0]] + [s[1]];
      LastOne([s[0]], [s[1]], tail);
      PlainUnit(s[1], tail);
      BodyCons(s[1], [s[1]], tail, s[2..], rest);
      PlainUnit(s[0], [s[1]] + tail);
      BodyCons(s[0], [s[0]], [s[1]] + tail, [s[1]] + s[2..], rest);
      assert [s[0]] + ([s[1]] + s[2..]) == s;
    } else {
      var tail := Escape(s[1..]) + [QUOTE] + rest;
      BodyBack(s[1..], rest);
      Regroup4(EscapeUnit(s[0]), Escape(s[1..]), [QUOTE], rest);
      UnitBack(s[0], tail);
      EscapeStart(s[0]);
      BodyCons(s[0], EscapeUnit(s[0]), tail, s[1..], rest);
      assert [s[0]] + s[1..] == s;
    }
  }

  lemma BodyCons(u: Unit, written: Units, tail: Units, s: Units, rest: Units)
    requires written != [] && written[0] != QUOTE && ParseUnit(written + tail) == Some(Parsed(u, tail))
    requires ParseBody(tail) == Some(Parsed(s, rest))
    ensures ParseBody(written + tail) == Some(Parsed([u] + s, rest))
  {
    hide ParseUnit;
  }

  lemma PlainUnit(u: Unit, rest: Units)
    requires u >= 32 && u != QUOTE && u != BACKSLASH
    ensures ParseUnit([u] + rest) == Some(Parsed(u, rest))
  {
    assert ([u] + rest)[1..] == rest;
  }

  lemma EscapeStart(u: Unit)
    ensures EscapeUnit(u)[0] != QUOTE && EscapeUnit(u)[0] >= 32
  {
  }

  lemma {:induction false} NatBack(n: nat)
    ensures ReadNat(PrintNat(n)) == n
    ensures |PrintNat(n)| > 1 ==> PrintNat(n)[0] != 48
    ensures n > 0 ==> PrintNat(n)[0] != 48
    decreases n
  {
    if n >= 10 {
      NatBack(n / 10);
      var r := PrintNat(n);
      assert r[..|r| - 1] == PrintNat(n / 10);
    } else {
      assert PrintNat(n)[..0] == [];
    }
  }

  lemma {:induction false} DigitsThenRest(s: Units, rest: Units)
    requires forall i :: 0 <= i < |s| ==> Digit(s[i])
    requires rest == [] || !Digit(rest[0])
    ensures Digits(s + rest) == |s|
  {
    if s == [] {
      assert s + rest == rest;
    } else {
      assert (s + rest)[1..] == s[1..] + rest;
      DigitsThenRest(s[1..], rest);
    }
  }

  /** What may follow a value inside a document. */
  predicate Follows(rest: Units) {
    rest == [] || rest[0] in {44, 93, 125}
  }

  lemma NumberBack(n: nat, rest: Units)
    requires Follows(rest)
    ensures ParseNat(PrintNat(n) + rest) == Some(Parsed(n, rest))
  {
    hide ReadNat, PrintNat;
    NatBack(n);
    DigitsThenRest(PrintNat(n), rest);
    assert (PrintNat(n) + rest)[..|PrintNat(n)|] == PrintNat(n);
    assert (PrintNat(n) + rest)[|PrintNat(n)|..] == rest;
  }

  /** A printed value starts with no space and no closing bracket or brace. */
  lemma PrintStart(v: Value)
    ensures Print(v) != [] && !Space(Print(v)[0]) && Print(v)[0] != 93 && Print(v)[0] != 125
  {
    hide PrintItems, PrintFields, Escape;
  }

  lemma NoSkip(s: Units)
    requires s != [] && !Space(s[0])
    ensures SkipSpace(s) == s
  {
  }

  lemma LiteralBack(v: Value, rest: Units)
    requires v.Null? || v.Bool?
    ensures ParseValue(Print(v) + rest) == Some(Parsed(v, rest))
  {
    hide ParseItems, ParseFields, ParseBody, ParseNat;
    NoSkip(Print(v) + rest);
    assert (NULL + rest)[4..] == rest && (TRUE + rest)[4..] == rest && (FALSE + rest)[5..] == rest;
  }

  lemma NumberValueBack(n: nat, rest: Units)
    requires Follows(rest)
    ensures ParseValue(PrintNat(n) + rest) == Some(Parsed(Number(n), rest))
  {
    hide ParseItems, ParseFields, ParseBody, ParseNat, PrintNat;
    NoSkip(PrintNat(n) + rest);
    NumberBack(n, rest);
  }

  lemma StringValueBack(s: Units, rest: Units)
    ensures ParseValue(Quoted(s) + rest) == Some(Parsed(String(s), rest))
  {
    hide ParseItems, ParseFields, ParseBody, ParseNat, Escape;
    NoSkip(Quoted(s) + rest);
    BodyBack(s, rest);
    assert (Quoted(s) + rest)[1..] == Escape(s) + [QUOTE] + rest;
  }

  lemma ArrayParse(body: Units, items: seq<Value>, rest: Units)
    requires if items == [] then body == [93] + rest else ParseItems(body) == Some(Parsed(items, rest)) && !StartsWith(SkipSpace(body), 93)
    ensures ParseValue([91] + body) == Some(Parsed(Array(items), rest))
  {
    hide ParseItems, ParseFields, ParseBody, ParseNat;
    NoSkip([91] + body);
    HeadOff(91, body);
    if items == [] { NoSkip(body); HeadOff(93, rest); }
  }

  lemma ObjectParse(body: Units, fields: seq<Field>, rest: Units)
    requires if fields == [] then body == [125] + rest else ParseFields(body) == Some(Parsed(fields, rest)) && !StartsWith(SkipSpace(body), 125)
    ensures ParseValue([123] + body) == Some(Parsed(Object(fields), rest))
  {
    hide ParseItems, ParseFields, ParseBody, ParseNat;
    NoSkip([123] + body);
    HeadOff(123, body);
    if fields == [] { NoSkip(body); HeadOff(125, rest); }
  }

  /** Printing any value and reading it back, with anything a document may hold after it, gives the value. */
  lemma {:induction false} ValueBack(v: Value, rest: Units)
    requires Follows(rest)
    ensures ParseValue(Print(v) + rest) == Some(Parsed(v, rest))
    decreases v
  {
    hide ParseItems, ParseFields, PrintItems, PrintFields, ParseValue, PrintNat, Quoted, SkipSpace;
    match v
    case Null => LiteralBack(v, rest);
    case Bool(b) => LiteralBack(v, rest);
    case Number(n) => NumberValueBack(n, rest);
    case String(s) => StringValueBack(s, rest);
    case Array(items) => ArrayBack(items, rest);
    case Object(fields) => ObjectBack(fields, rest);
  }

  lemma {:induction false} ArrayBack(items: seq<Value>, rest: Units)
    ensures ParseValue([91] + PrintItems(items) + [93] + rest) == Some(Parsed(Array(items), rest))
    decreases items, 1
  {
    hide ParseItems, PrintItems, ParseValue, SkipSpace;
    if items == [] { EmptyItems(rest); } else { ItemsBack(items, rest); ItemsStart(items, rest); }
    ArrayParse(PrintItems(items) + [93] + rest, items, rest);
    assert [91] + PrintItems(items) + [93] + rest == [91] + (PrintItems(items) + [93] + rest);
  }

  lemma {:induction false} ObjectBack(fields: seq<Field>, rest: Units)
    ensures ParseValue([123] + PrintFields(fields) + [125] + rest) == Some(Parsed(Object(fields), rest))
    decreases fields, 1
  {
    hide ParseFields, PrintFields, ParseValue, SkipSpace;
    if fields == [] { EmptyFields(rest); } else { FieldsBack(fields, rest); FieldsStart(fields, rest); }
    ObjectParse(PrintFields(fields) + [125] + rest, fields, rest);
    assert [123] + PrintFields(fields) + [125] + rest == [123] + (PrintFields(fields) + [125] + rest);
  }

  lemma EmptyItems(rest: Units)
    ensures PrintItems([]) + [93] + rest == [93] + rest && SkipSpace([93] + rest) == [93] + rest && ([93] + rest)[1..] == rest
  {
  }

  lemma EmptyFields(rest: Units)
    ensures PrintFields([]) + [125] + rest == [125] + rest && SkipSpace([125] + rest) == [125] + rest && ([125] + rest)[1..] == rest
  {
  }

  lemma ItemsStart(items: seq<Value>, rest: Units)
    requires items != []
    ensures !StartsWith(SkipSpace(PrintItems(items) + [93] + rest), 93)
  {
    hide Print;
    PrintStart(items[0]);
  }

  lemma FieldsStart(fields: seq<Field>, rest: Units)
    requires fields != []
    ensures !StartsWith(SkipSpace(PrintFields(fields) + [125] + rest), 125)
  {
    hide Print, Escape;
  }

  lemma {:induction false} ItemsBack(items: seq<Value>, rest: Units)
    requires items != []
    ensures ParseItems(PrintItems(items) + [93] + rest) == Some(Parsed(items, rest))
    decreases items, 0
  {
    hide ParseValue, Print;
    if |items| == 1 {
      ValueBack(items[0], [93] + rest);
      LastOne(Print(items[0]), [93], rest);
      HeadOff(93, rest);
      NoSkip([93] + rest);
      assert [items[0]] == items;
    } else {
      var tail := PrintItems(items[1..]) + [93] + rest;
      ValueBack(items[0], [44] + tail);
      Regroup(Print(items[0]), [44], PrintItems(items[1..]), [93], rest);
      HeadOff(44, tail);
      NoSkip([44] + tail);
      ItemsBack(items[1..], rest);
      assert [items[0]] + items[1..] == items;
    }
  }

  lemma {:induction false} FieldBack(f: Field, rest: Units)
    requires Follows(rest)
    ensures ParseField(PrintField(f) + rest) == Some(Parsed(f, rest))
    decreases f, 0
  {
    hide ParseValue, Print, ParseBody, Escape;
    var after := [58] + Print(f.value) + rest;
    var all := PrintField(f) + rest;
    NoSkip(all);
    assert all[1..] == Escape(f.name) + [QUOTE] + after;
    BodyBack(f.name, after);
    NoSkip(after);
    assert after[1..] == Print(f.value) + rest;
    ValueBack(f.value, rest);
  }

  lemma {:induction false} FieldsBack(fields: seq<Field>, rest: Units)
    requires fields != []
    ensures ParseFields(PrintFields(fields) + [125] + rest) == Some(Parsed(fields, rest))
    decreases fields, 0
  {
    hide ParseField, PrintField;
    if |fields| == 1 {
      FieldBack(fields[0], [125] + rest);
      LastOne(PrintField(fields[0]), [125], rest);
      HeadOff(125, rest);
      NoSkip([125] + rest);
      assert [fields[0]] == fields;
    } else {
      var tail := PrintFields(fields[1..]) + [125] + rest;
      FieldBack(fields[0], [44] + tail);
      Regroup(PrintField(fields[0]), [44], PrintFields(fields[1..]), [125], rest);
      HeadOff(44, tail);
      NoSkip([44] + tail);
      FieldsBack(fields[1..], rest);
      assert [fields[0]] + fields[1..] == fields;
    }
  }

  /** Every document this prints reads back as the value it was printed from. */
  lemma DocumentBack(v: Value)
    ensures Parse(Print(v)) == Some(v)
  {
    hide ParseValue, Print;
    ValueBack(v, []);
    assert Print(v) + [] == Print(v);
  }

  // --- how long a document is -------------------------------------------------------------------------

  /** Escaping costs at most six units for one. */
  lemma {:induction false} EscapeLength(s: Units)
    ensures |s| <= |Escape(s)| <= 6 * |s|
    decreases |s|
  {
    if s != [] {
      if Paired(s) { EscapeLength(s[2..]); } else { EscapeLength(s[1..]); }
    }
  }

  predicate Plain(s: Units) {
    forall i :: 0 <= i < |s| ==> 32 <= s[i] < 127 && s[i] != QUOTE && s[i] != BACKSLASH
  }

  /** And nothing at all for printable ASCII without quotes and backslashes. */
  lemma {:induction false} PlainLength(s: Units)
    requires Plain(s)
    ensures Escape(s) == s
  {
    if s != [] {
      PlainLength(s[1..]);
      assert s == [s[0]] + s[1..];
    }
  }
}
