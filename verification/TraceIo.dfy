/** The canonical, bounded and redacted form of a trace input or output: the rewriter, the flag it
    reports, and the receiver's validator. Decoding a string as JSON is a parameter, the reader. */
module TraceIo {
  import opened Outcomes
  import opened Text
  import opened JsonValues

  const MAX_DEPTH := 5
  const MAX_ITEMS := 128
  const MAX_STRING_CHARS := 96 * 1024
  const MAX_SUMMARY_BYTES := 128 * 1024
  const DEEPEST_CONTAINER := 7

  const BINARY_KEY := "_vifuBinary"
  const BINARY_OMITTED := "<_vifuBinary object omitted>"
  const MORE_KEY: string := "\U{2026}"
  const MORE_FIELDS := "<more fields>"
  const REDACTED := "[REDACTED]"
  const REDACTED_VALUE := "[REDACTED sensitive value]"

  const SENSITIVE_MARKERS: seq<string> := [
    "authorization:", "authorization=", "bearer ", "basic ", "api_key=", "api-key=", "apikey=",
    "access_token=", "refresh_token=", "token=", "password=", "password:", "secret=", "secret:",
    "credential=", "cookie:", "session="]

  const SENSITIVE_KEYS: seq<string> := [
    "authorization", "apikey", "accesstoken", "refreshtoken", "token", "secret", "password",
    "credential", "cookie", "session", "sessionid"]

  const MEDIA_MARKERS: seq<string> := ["image", "audio", "media", "binary", "base64"]

  // --- What is known of the reader --------------------------------------------------------------

  type Reader = string -> Option<Json>

  predicate IsJsonBlank(c: char) {
    c == ' ' || c == '\t' || c == '\n' || c == '\r'
  }

  /** Apart from trailing blanks, the text ends in a closing bracket or brace. */
  ghost predicate EndsBracketed(text: string) {
    exists e :: 0 <= e < |text| && text[e] in "]}" && forall i :: e < i < |text| ==> IsJsonBlank(text[i])
  }

  /** RFC 8259, sections 2, 4 and 5: a text of an object or array closes with its brace or bracket,
      and neither bracketed placeholder is a JSON text. */
  ghost predicate ReadsJson(reader: Reader) {
    && (forall text :: reader(text).Some? ==> WellFormed(reader(text).value))
    && (forall text :: reader(text).Some? && IsContainer(reader(text).value) ==> EndsBracketed(text))
    && reader(REDACTED) == None
    && reader(REDACTED_VALUE) == None
  }

  // --- Predicates on keys and strings -----------------------------------------------------------

  function Letters(key: string): string {
    if key == [] then []
    else if IsAsciiAlphanumeric(key[0]) then [LowerChar(key[0])] + Letters(key[1..])
    else Letters(key[1..])
  }

  predicate SensitiveKey(key: string) {
    var letters := Letters(key);
    exists i :: 0 <= i < |SENSITIVE_KEYS| && EndsWith(letters, SENSITIVE_KEYS[i])
  }

  predicate MediaKey(key: string) {
    var letters := Letters(key);
    letters == "data" || exists i :: 0 <= i < |MEDIA_MARKERS| && Contains(letters, MEDIA_MARKERS[i])
  }

  predicate ArgumentsKey(key: string) {
    Lower(key) == "arguments" || Lower(key) == "args"
  }

  predicate SensitiveText(text: string) {
    var normalized := Lower(Trim(text));
    exists i :: 0 <= i < |SENSITIVE_MARKERS| && Contains(normalized, SENSITIVE_MARKERS[i])
  }

  predicate Placeholder(text: string) {
    || text == REDACTED
    || text == REDACTED_VALUE
    || text == BINARY_OMITTED
    || text == MORE_FIELDS
    || (StartsWith(text, "<") && EndsWith(text, " omitted>"))
    || (StartsWith(text, "<media/binary omitted: ") && EndsWith(text, " chars>"))
  }

  predicate DataUrl(text: string) {
    StartsWith(Lower(TrimStart(text)), "data:")
  }

  predicate LooksLikeBase64(text: string) {
    var compact := Trim(text);
    && |compact| >= 128
    && |compact| % 4 == 0
    && forall i :: 0 <= i < |compact| ==> IsAsciiAlphanumeric(compact[i]) || compact[i] in "+/="
  }

  predicate Media(text: string, hint: Option<string>) {
    (hint.Some? && MediaKey(hint.value)) || DataUrl(text) || LooksLikeBase64(text)
  }

  function Shape(v: Json): string {
    match v
    case Null => "null"
    case Bool(_) => "boolean"
    case Number(_) => "number"
    case String(_) => "string"
    case Array(_) => "array"
    case Object(_) => "object"
  }

  predicate ToolCallContainer(depth: nat, hint: Option<string>) {
    hint.Some? &&
    var key := Lower(hint.value);
    if key == "tool_calls" || key == "toolcalls" then depth == 5
    else if key == "function" then depth <= 6
    else if key == "arguments" || key == "args" then depth <= 7
    else false
  }

  predicate Omitted(v: Json, depth: nat, hint: Option<string>) {
    depth >= MAX_DEPTH && IsContainer(v) && !ToolCallContainer(depth, hint)
  }

  predicate HasBinaryMarker(fields: seq<Field>) {
    exists i :: 0 <= i < |fields| && fields[i].key == BINARY_KEY && !fields[i].value.Null?
  }

  // --- The rewriter -----------------------------------------------------------------------------

  function ClipSuffix(count: nat): string {
    MORE_KEY + " <" + Decimal(count) + " chars total>"
  }

  /** How many characters of an over-long text of `count` characters are kept. */
  function ClipPrefix(count: nat): nat {
    var suffix := |ClipSuffix(count)|;
    if suffix < MAX_STRING_CHARS then MAX_STRING_CHARS - suffix else 0
  }

  function Clip(text: string): string
    requires |text| > MAX_STRING_CHARS
  {
    text[..ClipPrefix(|text|)] + ClipSuffix(|text|)
  }

  function RedactText(text: string, hint: Option<string>): string {
    if Placeholder(text) then text
    else if SensitiveText(text) then REDACTED_VALUE
    else if Media(text, hint) then "<media/binary omitted: " + Decimal(|text|) + " chars>"
    else if |text| > MAX_STRING_CHARS then Clip(text)
    else text
  }

  predicate TextTruncates(text: string, hint: Option<string>) {
    Placeholder(text) || SensitiveText(text) || Media(text, hint) || |text| >= MAX_STRING_CHARS
  }

  /** The container that a string under an arguments key decodes to, if it does. */
  function Decoded(reader: Reader, text: string, hint: Option<string>): (d: Option<Json>)
    ensures d.Some? ==> IsContainer(d.value)
  {
    if hint.Some? && ArgumentsKey(hint.value) then
      var d := reader(text);
      if d.Some? && IsContainer(d.value) then d else None
    else None
  }

  /** Strings are decoded in place, so recursion goes down in depth, or from a string to a container
      at the same depth. */
  function Remaining(depth: nat): nat {
    if depth <= DEEPEST_CONTAINER then DEEPEST_CONTAINER + 1 - depth else 0
  }

  function RedactValue(reader: Reader, v: Json, depth: nat, hint: Option<string>): Json
    decreases Remaining(depth), if v.String? then 3 else 2
  {
    if Omitted(v, depth, hint) then String("<" + Shape(v) + " omitted>")
    else
      match v
      case Object(fields) =>
        if HasBinaryMarker(fields) then String(BINARY_OMITTED) else Object(RedactFields(reader, fields, depth))
      case Array(items) =>
        Array(RedactItems(reader, items, depth, hint))
      case String(text) =>
        var decoded := Decoded(reader, text, hint);
        if decoded.Some? then RedactValue(reader, decoded.value, depth, hint)
        else String(RedactText(text, hint))
      case _ => v
  }

  function RedactItems(reader: Reader, items: seq<Json>, depth: nat, hint: Option<string>): seq<Json>
    requires depth <= DEEPEST_CONTAINER
    decreases Remaining(depth), 0
  {
    seq(Min(|items|, MAX_ITEMS), i requires 0 <= i < Min(|items|, MAX_ITEMS) =>
      RedactValue(reader, items[i], depth + 1, hint))
  }

  function RedactFields(reader: Reader, fields: seq<Field>, depth: nat): seq<Field>
    requires depth <= DEEPEST_CONTAINER
    decreases Remaining(depth), 1
  {
    var kept := KeptFields(reader, fields, depth);
    if |fields| > MAX_ITEMS then Insert(kept, MORE_KEY, String(MORE_FIELDS)) else kept
  }

  function KeptFields(reader: Reader, fields: seq<Field>, depth: nat): seq<Field>
    requires depth <= DEEPEST_CONTAINER
    decreases Remaining(depth), 0
  {
    seq(Min(|fields|, MAX_ITEMS), i requires 0 <= i < Min(|fields|, MAX_ITEMS) =>
      Field(fields[i].key,
        if SensitiveKey(fields[i].key) then String(REDACTED)
        else RedactValue(reader, fields[i].value, depth + 1, Some(fields[i].key))))
  }

  /** Whether the rewriter raises the truncation flag. */
  predicate Truncates(reader: Reader, v: Json, depth: nat, hint: Option<string>)
    decreases Remaining(depth), if v.String? then 3 else 2
  {
    if Omitted(v, depth, hint) then true
    else
      match v
      case Object(fields) =>
        HasBinaryMarker(fields) || |fields| >= MAX_ITEMS || AnyFieldTruncates(reader, fields, depth)
      case Array(items) =>
        |items| >= MAX_ITEMS || AnyItemTruncates(reader, items, depth, hint)
      case String(text) =>
        var decoded := Decoded(reader, text, hint);
        if decoded.Some? then Truncates(reader, decoded.value, depth, hint) else TextTruncates(text, hint)
      case _ => false
  }

  predicate AnyItemTruncates(reader: Reader, items: seq<Json>, depth: nat, hint: Option<string>)
    requires depth <= DEEPEST_CONTAINER
    decreases Remaining(depth), 0
  {
    exists i :: 0 <= i < |items| && Truncates(reader, items[i], depth + 1, hint)
  }

  predicate FieldTruncates(reader: Reader, field: Field, depth: nat)
    requires depth <= DEEPEST_CONTAINER
    decreases Remaining(depth), 0
  {
    SensitiveKey(field.key) || Truncates(reader, field.value, depth + 1, Some(field.key))
  }

  predicate AnyFieldTruncates(reader: Reader, fields: seq<Field>, depth: nat)
    requires depth <= DEEPEST_CONTAINER
    decreases Remaining(depth), 1
  {
    exists i :: 0 <= i < |fields| && FieldTruncates(reader, fields[i], depth)
  }

  /** The rewriter as the gateway runs it: one pass that fills the output and raises the flag. */
  method RedactTraceIoValue(reader: Reader, v: Json, depth: nat, hint: Option<string>, truncated: bool)
    returns (result: Json, flag: bool)
    requires WellFormed(v) && ReadsJson(reader)
    ensures result == RedactValue(reader, v, depth, hint)
    ensures flag == (truncated || Truncates(reader, v, depth, hint))
    decreases Remaining(depth), if v.String? then 3 else 2
  {
    flag := truncated;
    if depth >= MAX_DEPTH && IsContainer(v) && !ToolCallContainer(depth, hint) {
      return String("<" + Shape(v) + " omitted>"), true;
    }
    match v {
      case Object(fields) =>
        if HasBinaryMarker(fields) {
          return String(BINARY_OMITTED), true;
        }
        var output;
        output, flag := RedactObject(reader, fields, depth, flag);
        result := Object(output);
      case Array(items) =>
        var output;
        output, flag := RedactArray(reader, items, depth, hint, flag);
        result := Array(output);
      case String(text) =>
        var decoded := Decoded(reader, text, hint);
        if decoded.Some? {
          result, flag := RedactTraceIoValue(reader, decoded.value, depth, hint, flag);
        } else {
          result, flag := String(RedactText(text, hint)), flag || TextTruncates(text, hint);
        }
      case _ =>
        result := v;
    }
  }

  method RedactObject(reader: Reader, fields: seq<Field>, depth: nat, truncated: bool)
    returns (output: seq<Field>, flag: bool)
    requires WellFormed(Object(fields)) && ReadsJson(reader)
    requires depth <= DEEPEST_CONTAINER
    ensures output == RedactFields(reader, fields, depth)
    ensures flag == (truncated || |fields| >= MAX_ITEMS || AnyFieldTruncates(reader, fields, depth))
    decreases Remaining(depth), 1
  {
    flag := truncated || |fields| >= MAX_ITEMS;
    output := [];
    var index := 0;
    while index < |fields|
      invariant index <= |fields| && FieldsSoFar(reader, fields, depth, truncated, index, output, flag)
    {
      if index >= MAX_ITEMS {
        FieldsAreCut(reader, fields, depth, truncated, index, output, flag);
        flag := true;
        output := Insert(output, MORE_KEY, String(MORE_FIELDS));
        break;
      }
      var key, value := fields[index].key, String(REDACTED);
      ghost var before := flag;
      if SensitiveKey(key) {
        flag := true;
      } else {
        value, flag := RedactTraceIoValue(reader, fields[index].value, depth + 1, Some(key), flag);
      }
      FieldsTurn(reader, fields, depth, truncated, index, output, before, value);
      output := Insert(output, key, value);
      index := index + 1;
    }
    if index == |fields| { FieldsAreDone(reader, fields, depth, truncated, output, flag); }
  }

  lemma FieldsAreDone(
      reader: Reader, fields: seq<Field>, depth: nat, truncated: bool, output: seq<Field>, flag: bool)
    requires depth <= DEEPEST_CONTAINER && FieldsSoFar(reader, fields, depth, truncated, |fields|, output, flag)
    ensures output == RedactFields(reader, fields, depth)
    ensures flag == (truncated || |fields| >= MAX_ITEMS || AnyFieldTruncates(reader, fields, depth))
  {
    assert fields[..|fields|] == fields;
  }

  lemma FieldsAreCut(
      reader: Reader, fields: seq<Field>, depth: nat, truncated: bool, index: nat, output: seq<Field>, flag: bool)
    requires depth <= DEEPEST_CONTAINER && MAX_ITEMS <= index < |fields|
    requires FieldsSoFar(reader, fields, depth, truncated, index, output, flag)
    ensures Insert(output, MORE_KEY, String(MORE_FIELDS)) == RedactFields(reader, fields, depth)
  {
    KeptFieldsEnd(reader, fields, depth);
  }

  /** What the object loop has done with the first fields. */
  ghost predicate FieldsSoFar(
      reader: Reader, fields: seq<Field>, depth: nat, truncated: bool, index: nat, output: seq<Field>, flag: bool)
    requires depth <= DEEPEST_CONTAINER && index <= |fields|
  {
    && index <= MAX_ITEMS && output == KeptFields(reader, fields[..index], depth)
    && flag == (truncated || |fields| >= MAX_ITEMS || AnyFieldTruncates(reader, fields[..index], depth))
  }

  lemma FieldsTurn(
      reader: Reader, fields: seq<Field>, depth: nat, truncated: bool, index: nat, output: seq<Field>, flag: bool,
      value: Json)
    requires WellFormed(Object(fields)) && depth <= DEEPEST_CONTAINER && index < |fields| && index < MAX_ITEMS
    requires FieldsSoFar(reader, fields, depth, truncated, index, output, flag)
    requires value == if SensitiveKey(fields[index].key) then String(REDACTED)
                      else RedactValue(reader, fields[index].value, depth + 1, Some(fields[index].key))
    ensures FieldsSoFar(reader, fields, depth, truncated, index + 1, Insert(output, fields[index].key, value),
                        flag || FieldTruncates(reader, fields[index], depth))
  {
    KeptFieldsStep(reader, fields, depth, index, value);
    FieldsFlagStep(reader, fields, depth, index);
  }

  lemma KeptFieldsEnd(reader: Reader, fields: seq<Field>, depth: nat)
    requires |fields| > MAX_ITEMS && depth <= DEEPEST_CONTAINER
    ensures KeptFields(reader, fields, depth) == KeptFields(reader, fields[..MAX_ITEMS], depth)
  {
  }

  /** One turn of the object loop: the next key is the largest so far, so its field goes last. */
  lemma KeptFieldsStep(reader: Reader, fields: seq<Field>, depth: nat, index: nat, value: Json)
    requires WellFormed(Object(fields)) && depth <= DEEPEST_CONTAINER
    requires index < |fields| && index < MAX_ITEMS
    requires value == if SensitiveKey(fields[index].key) then String(REDACTED)
                      else RedactValue(reader, fields[index].value, depth + 1, Some(fields[index].key))
    ensures KeptFields(reader, fields[..index + 1], depth)
         == Insert(KeptFields(reader, fields[..index], depth), fields[index].key, value)
  {
    var before := KeptFields(reader, fields[..index], depth);
    KeptFieldsGrow(reader, fields, depth, index);
    forall i | 0 <= i < |before|
      ensures Less(before[i].key, fields[index].key)
    {
      assert before[i].key == fields[i].key;
    }
    InsertLast(before, fields[index].key, value);
  }

  lemma KeptFieldsGrow(reader: Reader, fields: seq<Field>, depth: nat, index: nat)
    requires depth <= DEEPEST_CONTAINER && index < |fields| && index < MAX_ITEMS
    ensures KeptFields(reader, fields[..index + 1], depth)
         == KeptFields(reader, fields[..index], depth)
          + [Field(fields[index].key,
               if SensitiveKey(fields[index].key) then String(REDACTED)
               else RedactValue(reader, fields[index].value, depth + 1, Some(fields[index].key)))]
  {
  }

  lemma FieldsFlagStep(reader: Reader, fields: seq<Field>, depth: nat, index: nat)
    requires depth <= DEEPEST_CONTAINER && index < |fields|
    ensures AnyFieldTruncates(reader, fields[..index + 1], depth)
        <==> AnyFieldTruncates(reader, fields[..index], depth) || FieldTruncates(reader, fields[index], depth)
  {
    AnyGrows(fields, index, f => FieldTruncates(reader, f, depth));
  }

  predicate Any<T>(s: seq<T>, p: T -> bool) {
    exists i :: 0 <= i < |s| && p(s[i])
  }

  lemma AnyGrows<T>(s: seq<T>, index: nat, p: T -> bool)
    requires index < |s|
    ensures Any(s[..index + 1], p) <==> Any(s[..index], p) || p(s[index])
  {
    assert s[..index + 1] == s[..index] + [s[index]];
  }

  /** One turn of the array loop. */
  lemma RedactItemsStep(reader: Reader, items: seq<Json>, depth: nat, hint: Option<string>, index: nat)
    requires depth <= DEEPEST_CONTAINER && index < |items| && index < MAX_ITEMS
    ensures RedactItems(reader, items[..index + 1], depth, hint)
         == RedactItems(reader, items[..index], depth, hint) + [RedactValue(reader, items[index], depth + 1, hint)]
    ensures AnyItemTruncates(reader, items[..index + 1], depth, hint)
        <==> AnyItemTruncates(reader, items[..index], depth, hint) || Truncates(reader, items[index], depth + 1, hint)
  {
    AnyGrows(items, index, item => Truncates(reader, item, depth + 1, hint));
  }

  method RedactArray(reader: Reader, items: seq<Json>, depth: nat, hint: Option<string>, truncated: bool)
    returns (output: seq<Json>, flag: bool)
    requires WellFormed(Array(items)) && ReadsJson(reader)
    requires depth <= DEEPEST_CONTAINER
    ensures output == RedactItems(reader, items, depth, hint)
    ensures flag == (truncated || |items| >= MAX_ITEMS || AnyItemTruncates(reader, items, depth, hint))
    decreases Remaining(depth), 1
  {
    flag := truncated || |items| >= MAX_ITEMS;
    output := [];
    for index := 0 to Min(|items|, MAX_ITEMS)
      invariant output == RedactItems(reader, items[..index], depth, hint)
      invariant flag == (truncated || |items| >= MAX_ITEMS || AnyItemTruncates(reader, items[..index], depth, hint))
    {
      var item;
      item, flag := RedactTraceIoValue(reader, items[index], depth + 1, hint, flag);
      RedactItemsStep(reader, items, depth, hint, index);
      output := output + [item];
    }
    assert items[..|items|] == items;
  }

  // --- Summaries and their validator ------------------------------------------------------------

  datatype TraceIoSummary = TraceIoSummary(value: Json, truncated: bool)

  /** What replaces a summary that is still too large. */
  function Fallback(v: Json): Json {
    Object([Field("summary", String(Shape(v))), Field("truncated", Bool(true))])
  }

  function CanonicalSummary(reader: Reader, v: Json): TraceIoSummary {
    var summary := RedactValue(reader, v, 0, None);
    if EncodedSize(summary) > MAX_SUMMARY_BYTES then TraceIoSummary(Fallback(v), true)
    else TraceIoSummary(summary, Truncates(reader, v, 0, None))
  }

  /** Whether a summary value shows by itself that something was cut. */
  predicate RequiresTruncation(v: Json) {
    match v
    case Object(fields) =>
      || |fields| >= MAX_ITEMS
      || (exists i :: 0 <= i < |fields| && fields[i] == Field("truncated", Bool(true)))
      || (exists i :: 0 <= i < |fields| && RequiresTruncation(fields[i].value))
    case Array(items) =>
      |items| >= MAX_ITEMS || exists i :: 0 <= i < |items| && RequiresTruncation(items[i])
    case String(text) =>
      |text| >= MAX_STRING_CHARS || Placeholder(text) || Contains(text, " chars total>")
    case _ => false
  }

  datatype SummaryError = TooLarge | NotCanonical | UnderReportsTruncation

  function ValidateSummary(reader: Reader, s: TraceIoSummary): Result<(), SummaryError> {
    if EncodedSize(s.value) > MAX_SUMMARY_BYTES then Err(TooLarge)
    else if CanonicalSummary(reader, s.value).value != s.value then Err(NotCanonical)
    else if (s.truncated || RequiresTruncation(s.value)) != s.truncated then Err(UnderReportsTruncation)
    else Ok(())
  }
}
