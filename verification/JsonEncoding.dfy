/** The compact JSON text of a value, after section 7 of RFC 8259, and its length, which the size limits count. */
module JsonEncoding {
  import opened JsonValues
  import opened TelemetryEvents

  // --- The text ---------------------------------------------------------------------------------

  function HexDigit(n: nat): char
    requires n < 16
  {
    "0123456789abcdef"[n]
  }

  /** A character inside a JSON string: quotes, backslashes and control characters are escaped. */
  function EscapedChar(c: char): string {
    var n := c as int;
    if c == '\"' then "\\\""
    else if c == '\\' then "\\\\"
    else if n == 8 then "\\b"
    else if n == 9 then "\\t"
    else if n == 10 then "\\n"
    else if n == 12 then "\\f"
    else if n == 13 then "\\r"
    else if n < 0x20 then "\\u00" + [HexDigit(n / 16), HexDigit(n % 16)]
    else [c]
  }

  function Escaped(text: string): string {
    if text == [] then [] else EscapedChar(text[0]) + Escaped(text[1..])
  }

  function Quoted(text: string): string {
    "\"" + Escaped(text) + "\""
  }

  function Encoded(v: Json): string {
    match v
    case Null => "null"
    case Bool(b) => if b then "true" else "false"
    case Number(literal) => literal
    case String(text) => Quoted(text)
    case Array(items) => "[" + EncodedList(items) + "]"
    case Object(fields) => "{" + EncodedMembers(fields) + "}"
  }

  function EncodedList(items: seq<Json>): string {
    if items == [] then ""
    else Encoded(items[0]) + (if |items| > 1 then "," else "") + EncodedList(items[1..])
  }

  function EncodedMembers(fields: seq<Field>): string {
    if fields == [] then ""
    else
      Quoted(fields[0].key) + ":" + Encoded(fields[0].value)
      + (if |fields| > 1 then "," else "") + EncodedMembers(fields[1..])
  }

  // --- Its length -------------------------------------------------------------------------------

  lemma {:induction false} SizeOfBoth(a: string, b: string)
    ensures Utf8Size(a + b) == Utf8Size(a) + Utf8Size(b)
  {
    if a == [] {
      assert a + b == b;
    } else {
      SizeOfBoth(a[1..], b);
      assert (a + b)[1..] == a[1..] + b;
    }
  }

  lemma SizeOfEscaped(c: char)
    ensures Utf8Size(EscapedChar(c)) == EncodedChar(c)
  {
    if (c as int) < 0x20 || c == '\"' || c == '\\' {
      AsciiSize(EscapedChar(c));
    } else {
      assert Utf8Size([c]) == Utf8Length(c) + Utf8Size([]);
    }
  }

  lemma {:induction false} SizeOfText(text: string)
    ensures Utf8Size(Escaped(text)) + 2 == EncodedText(text)
  {
    if text != [] {
      SizeOfText(text[1..]);
      SizeOfEscaped(text[0]);
      SizeOfBoth(EscapedChar(text[0]), Escaped(text[1..]));
    }
  }

  lemma SizeOfQuoted(text: string)
    ensures Utf8Size(Quoted(text)) == EncodedText(text)
  {
    SizeOfText(text);
    AsciiSize("\"");
    SizeOfBoth("\"" + Escaped(text), "\"");
    SizeOfBoth("\"", Escaped(text));
  }

  /** Number literals are of ASCII characters. */
  predicate PlainNumbers(v: Json) {
    match v
    case Number(literal) => forall i :: 0 <= i < |literal| ==> (literal[i] as int) < 0x80
    case Array(items) => forall i :: 0 <= i < |items| ==> PlainNumbers(items[i])
    case Object(fields) => forall i :: 0 <= i < |fields| ==> PlainNumbers(fields[i].value)
    case _ => true
  }

  /** The size that the limits count is the number of bytes of the compact encoding. */
  lemma {:induction false} EncodedSizeIsTheLength(v: Json)
    requires PlainNumbers(v)
    ensures EncodedSize(v) == Utf8Size(Encoded(v))
  {
    match v {
      case Null => AsciiSize("null");
      case Bool(b) => AsciiSize(Encoded(v));
      case Number(literal) => AsciiSize(literal);
      case String(text) => SizeOfQuoted(text);
      case Array(items) =>
        ListSize(items);
        Bracketed("[", EncodedList(items), "]");
      case Object(fields) =>
        MembersSize(fields);
        Bracketed("{", EncodedMembers(fields), "}");
    }
  }

  lemma Bracketed(open: string, inside: string, close: string)
    requires |open| == |close| == 1 && (open[0] as int) < 0x80 && (close[0] as int) < 0x80
    ensures Utf8Size(open + inside + close) == 2 + Utf8Size(inside)
  {
    AsciiSize(open);
    AsciiSize(close);
    SizeOfBoth(open + inside, close);
    SizeOfBoth(open, inside);
  }

  lemma {:induction false} ListSize(items: seq<Json>)
    requires forall i :: 0 <= i < |items| ==> PlainNumbers(items[i])
    ensures EncodedItems(items) == Utf8Size(EncodedList(items))
    decreases items
  {
    if items != [] {
      var comma := if |items| > 1 then "," else "";
      EncodedSizeIsTheLength(items[0]);
      ListSize(items[1..]);
      AsciiSize(comma);
      SizeOfBoth(Encoded(items[0]) + comma, EncodedList(items[1..]));
      SizeOfBoth(Encoded(items[0]), comma);
    }
  }

  lemma {:induction false} MembersSize(fields: seq<Field>)
    requires forall i :: 0 <= i < |fields| ==> PlainNumbers(fields[i].value)
    ensures EncodedFields(fields) == Utf8Size(EncodedMembers(fields))
    decreases fields
  {
    if fields != [] {
      var comma := if |fields| > 1 then "," else "";
      var key, value := Quoted(fields[0].key), Encoded(fields[0].value);
      EncodedSizeIsTheLength(fields[0].value);
      SizeOfQuoted(fields[0].key);
      MembersSize(fields[1..]);
      AsciiSize(comma);
      AsciiSize(":");
      SizeOfBoth(key + ":" + value + comma, EncodedMembers(fields[1..]));
      SizeOfBoth(key + ":" + value, comma);
      SizeOfBoth(key + ":", value);
      SizeOfBoth(key, ":");
    }
  }
}
