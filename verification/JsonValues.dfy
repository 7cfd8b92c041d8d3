/** JSON values as `serde_json::Value` holds them. Objects are sorted maps, so they are lists of
    fields in strictly increasing key order. */
module JsonValues {
  import opened Outcomes
  import opened Text

  datatype Field = Field(key: string, value: Json)

  datatype Json =
    | Null
    | Bool(b: bool)
    | Number(literal: string)
    | String(text: string)
    | Array(items: seq<Json>)
    | Object(fields: seq<Field>)

  const MAX_TEXT_LENGTH: nat := 0x7FFF_FFFF_FFFF_FFFF

  predicate IsContainer(v: Json) {
    v.Array? || v.Object?
  }

  ghost predicate SortedKeys(fields: seq<Field>) {
    forall i, j :: 0 <= i < j < |fields| ==> Less(fields[i].key, fields[j].key)
  }

  /** What every value in memory satisfies: sorted objects, and texts that an address space holds. */
  ghost predicate WellFormed(v: Json) {
    match v
    case String(text) => |text| <= MAX_TEXT_LENGTH
    case Array(items) => forall i :: 0 <= i < |items| ==> WellFormed(items[i])
    case Object(fields) =>
      SortedKeys(fields) && forall i :: 0 <= i < |fields| ==> WellFormed(fields[i].value)
    case _ => true
  }

  predicate HasKey(fields: seq<Field>, key: string) {
    exists i :: 0 <= i < |fields| && fields[i].key == key
  }

  /** Where `key` is, or where it belongs. */
  function Position(fields: seq<Field>, key: string): (p: nat)
    ensures p <= |fields|
    ensures forall i :: 0 <= i < p ==> Less(fields[i].key, key)
    ensures p < |fields| ==> !Less(fields[p].key, key)
  {
    if fields == [] || !Less(fields[0].key, key) then 0 else 1 + Position(fields[1..], key)
  }

  /** `Map::insert`: replace the value of a present key, or add the key in its place. */
  function Insert(fields: seq<Field>, key: string, value: Json): seq<Field> {
    var p := Position(fields, key);
    if p < |fields| && fields[p].key == key then fields[p := Field(key, value)]
    else fields[..p] + [Field(key, value)] + fields[p..]
  }

  lemma InsertLast(fields: seq<Field>, key: string, value: Json)
    requires forall i :: 0 <= i < |fields| ==> Less(fields[i].key, key)
    ensures Insert(fields, key, value) == fields + [Field(key, value)]
  {
  }

  lemma InsertPresent(fields: seq<Field>, key: string, value: Json, q: nat)
    requires q < |fields| && fields[q].key == key
    requires forall i :: 0 <= i < q ==> Less(fields[i].key, key)
    ensures Position(fields, key) == q
    ensures Insert(fields, key, value) == fields[q := Field(key, value)]
  {
    LessIrreflexive(key);
  }

  lemma InsertAbsent(fields: seq<Field>, key: string, value: Json)
    requires !HasKey(fields, key)
    ensures |Insert(fields, key, value)| == |fields| + 1
    ensures Insert(fields, key, value)[Position(fields, key)] == Field(key, value)
  {
  }

  /** Insertion brings in nothing but the new field. */
  lemma InsertBringsOne(fields: seq<Field>, key: string, value: Json)
    ensures forall f :: f in Insert(fields, key, value) ==> f in fields || f == Field(key, value)
  {
  }

  /** Bytes of one character inside an encoded JSON string. */
  function EncodedChar(c: char): nat {
    var n := c as int;
    if c == '\"' || c == '\\' || n == 8 || n == 9 || n == 10 || n == 12 || n == 13 then 2
    else if n < 0x20 then 6
    else Utf8Length(c)
  }

  function Utf8Length(c: char): (n: nat)
    ensures 1 <= n <= 4
  {
    if (c as int) < 0x80 then 1 else if (c as int) < 0x800 then 2 else if (c as int) < 0x1_0000 then 3 else 4
  }

  function EncodedText(text: string): nat {
    if text == [] then 2 else EncodedChar(text[0]) + EncodedText(text[1..])
  }

  lemma {:induction false} EncodedTextBound(text: string)
    ensures EncodedText(text) <= 2 + 6 * |text|
  {
    if text != [] { EncodedTextBound(text[1..]); }
  }

  /** The length in bytes of the compact encoding, `serde_json::to_vec(v).len()`. */
  function EncodedSize(v: Json): nat {
    match v
    case Null => 4
    case Bool(b) => if b then 4 else 5
    case Number(literal) => |literal|
    case String(text) => EncodedText(text)
    case Array(items) => 2 + EncodedItems(items)
    case Object(fields) => 2 + EncodedFields(fields)
  }

  function EncodedItems(items: seq<Json>): nat {
    if items == [] then 0
    else EncodedSize(items[0]) + (if |items| > 1 then 1 else 0) + EncodedItems(items[1..])
  }

  function EncodedFields(fields: seq<Field>): nat {
    if fields == [] then 0
    else EncodedText(fields[0].key) + 1 + EncodedSize(fields[0].value)
         + (if |fields| > 1 then 1 else 0) + EncodedFields(fields[1..])
  }

  lemma EncodedPair(a: Field, b: Field)
    ensures EncodedSize(Object([a, b]))
         == 5 + EncodedText(a.key) + EncodedSize(a.value) + EncodedText(b.key) + EncodedSize(b.value)
  {
    assert [a, b][1..] == [b] && [b][1..] == [];
    assert EncodedFields([b]) == EncodedText(b.key) + 1 + EncodedSize(b.value);
  }

  lemma {:induction false} EncodedFieldsBound(fields: seq<Field>)
    requires forall i :: 0 <= i < |fields| ==> EncodedText(fields[i].key) + EncodedSize(fields[i].value) <= 500
    ensures EncodedFields(fields) <= 502 * |fields|
  {
    if fields != [] { EncodedFieldsBound(fields[1..]); }
  }

  /** Plain characters cost one byte each. */
  lemma {:induction false} EncodedPlainPrefix(plain: string, rest: string)
    requires forall i :: 0 <= i < |plain| ==> EncodedChar(plain[i]) == 1
    ensures EncodedText(plain + rest) == |plain| + EncodedText(rest)
  {
    if plain == [] {
      assert plain + rest == rest;
    } else {
      EncodedPlainPrefix(plain[1..], rest);
      assert (plain + rest)[1..] == plain[1..] + rest;
    }
  }
}
