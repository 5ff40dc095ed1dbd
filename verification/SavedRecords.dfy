/** What the saved commands share: reading a field, checking it, and how long it prints. */
module SavedRecords {
  import opened Text
  import opened Json

  // --- fields -----------------------------------------------------------------------------------

  /** The last member of that name, as in a parsed object. */
  function Lookup(fields: seq<Field>, name: Units): Option<Value> {
    if fields == [] then None
    else if fields[|fields| - 1].name == name then Some(fields[|fields| - 1].value)
    else Lookup(fields[..|fields| - 1], name)
  }

  predicate OnlyNames(fields: seq<Field>, names: set<Units>) {
    forall i :: 0 <= i < |fields| ==> fields[i].name in names
  }

  lemma {:induction false} LookupConcat(a: seq<Field>, b: seq<Field>, name: Units)
    ensures Lookup(a + b, name) == if Lookup(b, name).Some? then Lookup(b, name) else Lookup(a, name)
    decreases |b|
  {
    if b == [] {
      assert a + b == a;
    } else {
      assert (a + b)[..|a + b| - 1] == a + b[..|b| - 1];
      LookupConcat(a, b[..|b| - 1], name);
    }
  }

  lemma LookupOne(f: Field, name: Units)
    ensures Lookup([f], name) == if f.name == name then Some(f.value) else None
  {
    assert [f][..0] == [];
  }

  lemma LookupLast(a: seq<Field>, f: Field, name: Units)
    ensures Lookup(a + [f], name) == if f.name == name then Some(f.value) else Lookup(a, name)
  {
    LookupConcat(a, [f], name);
    LookupOne(f, name);
  }

  lemma LookupFour(a: Field, b: Field, c: Field, d: Field, name: Units)
    ensures Lookup([a, b, c, d], name) ==
              if d.name == name then Some(d.value) else if c.name == name then Some(c.value)
              else if b.name == name then Some(b.value) else if a.name == name then Some(a.value) else None
  {
    LookupOne(a, name);
    LookupLast([a], b, name);
    LookupLast([a, b], c, name);
    LookupLast([a, b, c], d, name);
    assert [a] + [b] == [a, b] && [a, b] + [c] == [a, b, c] && [a, b, c] + [d] == [a, b, c, d];
  }

  // --- checks -----------------------------------------------------------------------------------

  /** The white space and line terminators `trim` removes. */
  predicate Blank(u: Unit) {
    9 <= u <= 13 || u == 32 || u == 160 || u == 0x1680 || 0x2000 <= u <= 0x200A || u == 0x2028 || u == 0x2029
    || u == 0x202F || u == 0x205F || u == 0x3000 || u == 0xFEFF
  }

  function Trimmed(s: Units): (r: Units)
    ensures |r| <= |s|
  {
    TrimBy(s, Blank)
  }

  lemma TrimmedOnce(s: Units)
    ensures Trimmed(Trimmed(s)) == Trimmed(s)
  {
    TrimIdempotent(s, Blank);
  }

  predicate TextOf(v: Option<Value>, max: nat) {
    v.Some? && v.value.String? && Trimmed(v.value.s) != [] && |v.value.s| <= max
  }

  predicate Filled(s: Units, max: nat) {
    Trimmed(s) != [] && |s| <= max
  }

  /** The same text, unit by unit. */
  predicate Spells(s: Units, ascii: string) {
    |s| == |ascii| && forall i :: 0 <= i < |s| ==> s[i] == ascii[i] as int
  }

  predicate Alphanumeric(u: Unit) {
    65 <= u <= 90 || 97 <= u <= 122 || 48 <= u <= 57
  }

  /** A letter or digit, then up to 127 letters, digits, dots, underscores, colons or hyphens. */
  predicate IsCommandId(s: Units) {
    && 1 <= |s| <= 128 && Alphanumeric(s[0])
    && forall i :: 0 <= i < |s| ==> Alphanumeric(s[i]) || s[i] in {46, 95, 58, 45}
  }

  lemma CommandIdIsPlain(s: Units)
    requires IsCommandId(s)
    ensures Plain(s)
  {
  }

  // --- lengths ----------------------------------------------------------------------------------

  /** Printed members, a separator each. */
  function Total(fields: seq<Field>): nat {
    if fields == [] then 0 else |PrintField(fields[0])| + 1 + Total(fields[1..])
  }

  lemma {:induction false} FieldsLength(fields: seq<Field>)
    ensures |PrintFields(fields)| <= Total(fields)
  {
    hide PrintField;
    if |fields| > 1 { FieldsLength(fields[1..]); }
  }

  lemma {:induction false} TotalConcat(a: seq<Field>, b: seq<Field>)
    ensures Total(a + b) == Total(a) + Total(b)
  {
    hide PrintField;
    if a == [] {
      assert a + b == b;
    } else {
      assert (a + b)[1..] == a[1..] + b;
      TotalConcat(a[1..], b);
    }
  }

  lemma TotalOne(f: Field)
    ensures Total([f]) == |PrintField(f)| + 1
  {
    hide PrintField;
    assert Total([f][1..]) == 0;
  }

  lemma {:induction false} ItemsLength(items: seq<Value>, each: nat)
    requires forall i :: 0 <= i < |items| ==> |Print(items[i])| <= each
    ensures |PrintItems(items)| <= |items| * (each + 1)
  {
    hide Print;
    if |items| > 1 {
      ItemsLength(items[1..], each);
      assert |items| * (each + 1) == (each + 1) + |items[1..]| * (each + 1);
    }
  }

  lemma StringField(name: Units, s: Units)
    ensures |PrintField(Field(name, String(s)))| <= 6 * |name| + 6 * |s| + 5
  {
    hide Escape;
    EscapeLength(name);
    EscapeLength(s);
  }

  /** A text that needs no escaping prints as it is. */
  lemma PlainField(name: Units, s: Units)
    requires Plain(s)
    ensures |PrintField(Field(name, String(s)))| <= 6 * |name| + |s| + 5
  {
    hide Escape;
    EscapeLength(name);
    PlainLength(s);
  }

  lemma ObjectLength(fields: seq<Field>)
    ensures |Print(Object(fields))| <= Total(fields) + 2
  {
    hide PrintFields, Total;
    FieldsLength(fields);
  }

  lemma TotalFour(a: Field, b: Field, c: Field, d: Field)
    ensures Total([a, b, c, d]) == |PrintField(a)| + |PrintField(b)| + |PrintField(c)| + |PrintField(d)| + 4
  {
    hide PrintField, Total;
    TotalOne(a);
    TotalOne(b);
    TotalOne(c);
    TotalOne(d);
    TotalConcat([a], [b]);
    TotalConcat([a, b], [c]);
    TotalConcat([a, b, c], [d]);
    assert [a] + [b] == [a, b] && [a, b] + [c] == [a, b, c] && [a, b, c] + [d] == [a, b, c, d];
  }

  lemma ObjectField(name: Units, fields: seq<Field>)
    ensures |PrintField(Field(name, Object(fields)))| <= 6 * |name| + 3 + |Print(Object(fields))|
  {
    hide Escape, Print;
    EscapeLength(name);
  }
}
