/** What a summary keeps: values that need no redaction come through as they are, and whatever is cut elsewhere,
    the rest stays in its place. */
module TraceIoKept {
  import opened Outcomes
  import opened Text
  import opened JsonValues
  import opened TraceIo
  import opened ClippedText
  import opened TraceIoFixpoint
  import opened TraceIoGuarantees

  // --- Values that need no redaction ------------------------------------------------------------

  /** How many containers may lie around each other, the last under this key. */
  function Levels(hint: Option<string>): nat {
    if hint == None then 5
    else
      var key := Lower(hint.value);
      if key == "tool_calls" || key == "toolcalls" then 6
      else if key == "function" then 7
      else if key == "arguments" || key == "args" then 8
      else 5
  }

  predicate PlainText(text: string, hint: Option<string>) {
    |text| < 98_304 && !SensitiveText(text) && !Media(text, hint) && !Placeholder(text)
  }

  /** A text of arguments that is a JSON container. */
  predicate IsEncoded(reader: Reader, text: string, hint: Option<string>) {
    && hint.Some? && (Lower(hint.value) == "arguments" || Lower(hint.value) == "args")
    && reader(text).Some? && IsContainer(reader(text).value)
  }

  /** Not too deep, not too long, nothing secret, no media, and no text that is decoded. */
  predicate Harmless(reader: Reader, v: Json, depth: nat, hint: Option<string>) {
    match v
    case Object(fields) =>
      && depth < Levels(hint) && |fields| < 128 && !HasBinaryMarker(fields)
      && forall i :: 0 <= i < |fields| ==> HarmlessField(reader, fields[i], depth)
    case Array(items) =>
      depth < Levels(hint) && |items| < 128 && forall i :: 0 <= i < |items| ==> Harmless(reader, items[i], depth + 1, hint)
    case String(text) => !IsEncoded(reader, text, hint) && PlainText(text, hint)
    case _ => true
  }

  predicate HarmlessField(reader: Reader, field: Field, depth: nat) {
    !SensitiveKey(field.key) && Harmless(reader, field.value, depth + 1, Some(field.key))
  }

  lemma DepthIsLimited(v: Json, depth: nat, hint: Option<string>)
    requires IsContainer(v)
    ensures Omitted(v, depth, hint) <==> depth >= Levels(hint)
  {
  }

  /** A value comes through as it is, and without the flag, exactly when it is harmless. */
  lemma {:induction false} HarmlessIsKept(reader: Reader, v: Json, depth: nat, hint: Option<string>)
    ensures RedactValue(reader, v, depth, hint) == v && !Truncates(reader, v, depth, hint)
        <==> Harmless(reader, v, depth, hint)
    decreases v
  {
    match v {
      case Object(fields) =>
        DepthIsLimited(v, depth, hint);
        if depth < Levels(hint) && |fields| < 128 && !HasBinaryMarker(fields) {
          forall i | 0 <= i < |fields|
            ensures Entry(reader, fields[i], depth) == fields[i] && !FieldTruncates(reader, fields[i], depth)
                <==> HarmlessField(reader, fields[i], depth)
          {
            if !SensitiveKey(fields[i].key) { HarmlessIsKept(reader, fields[i].value, depth + 1, Some(fields[i].key)); }
          }
          HarmlessFieldsAreKept(reader, fields, depth);
        }
      case Array(items) =>
        DepthIsLimited(v, depth, hint);
        if depth < Levels(hint) && |items| < 128 {
          forall i | 0 <= i < |items|
            ensures RedactValue(reader, items[i], depth + 1, hint) == items[i] && !Truncates(reader, items[i], depth + 1, hint)
                <==> Harmless(reader, items[i], depth + 1, hint)
          {
            HarmlessIsKept(reader, items[i], depth + 1, hint);
          }
          HarmlessItemsAreKept(reader, items, depth, hint);
        }
      case String(text) =>
        HarmlessTextIsKept(reader, text, depth, hint);
      case _ =>
    }
  }

  lemma HarmlessTextIsKept(reader: Reader, text: string, depth: nat, hint: Option<string>)
    ensures RedactValue(reader, String(text), depth, hint) == String(text) && !Truncates(reader, String(text), depth, hint)
        <==> Harmless(reader, String(text), depth, hint)
  {
    var decoded := Decoded(reader, text, hint);
    if decoded.Some? { ContainerStaysOrIsNamed(reader, decoded.value, depth, hint); }
  }

  /** A container is rewritten to a container or is reported as cut. */
  lemma ContainerStaysOrIsNamed(reader: Reader, v: Json, depth: nat, hint: Option<string>)
    requires IsContainer(v)
    ensures RedactValue(reader, v, depth, hint).String? ==> Truncates(reader, v, depth, hint)
  {
  }

  lemma HarmlessFieldsAreKept(reader: Reader, fields: seq<Field>, depth: nat)
    requires depth <= DEEPEST_CONTAINER && |fields| < 128
    requires forall i :: 0 <= i < |fields| ==>
      (Entry(reader, fields[i], depth) == fields[i] && !FieldTruncates(reader, fields[i], depth)
       <==> HarmlessField(reader, fields[i], depth))
    ensures RedactFields(reader, fields, depth) == fields && !AnyFieldTruncates(reader, fields, depth)
        <==> forall i :: 0 <= i < |fields| ==> HarmlessField(reader, fields[i], depth)
  {
    var kept := RedactFields(reader, fields, depth);
    KeptFieldsAre(reader, fields, depth);
    assert kept == fields <==> forall i :: 0 <= i < |fields| ==> kept[i] == fields[i];
  }

  lemma HarmlessItemsAreKept(reader: Reader, items: seq<Json>, depth: nat, hint: Option<string>)
    requires depth <= DEEPEST_CONTAINER && |items| < 128
    requires forall i :: 0 <= i < |items| ==>
      (RedactValue(reader, items[i], depth + 1, hint) == items[i] && !Truncates(reader, items[i], depth + 1, hint)
       <==> Harmless(reader, items[i], depth + 1, hint))
    ensures RedactItems(reader, items, depth, hint) == items && !AnyItemTruncates(reader, items, depth, hint)
        <==> forall i :: 0 <= i < |items| ==> Harmless(reader, items[i], depth + 1, hint)
  {
    var kept := RedactItems(reader, items, depth, hint);
    assert forall i :: 0 <= i < |items| ==> kept[i] == RedactValue(reader, items[i], depth + 1, hint);
    assert kept == items <==> forall i :: 0 <= i < |items| ==> kept[i] == items[i];
  }

  /** So a summary is the value itself, without the flag, exactly for harmless values of at most 128 KiB. */
  lemma SummaryIsTheValue(reader: Reader, v: Json)
    ensures CanonicalSummary(reader, v) == TraceIoSummary(v, false)
        <==> Harmless(reader, v, 0, None) && EncodedSize(v) <= 131_072
  {
    HarmlessIsKept(reader, v, 0, None);
  }

  // --- The rest of a value that is cut ----------------------------------------------------------

  datatype Step = Key(key: string) | Index(i: nat)

  /** `leaf` is at the end of the path. */
  ghost predicate Holds(v: Json, path: seq<Step>, leaf: Json)
    decreases |path|
  {
    if path == [] then v == leaf
    else
      match (v, path[0])
      case (Object(fields), Key(k)) =>
        exists i :: 0 <= i < |fields| && fields[i].key == k && Holds(fields[i].value, path[1..], leaf)
      case (Array(items), Index(i)) => i < |items| && Holds(items[i], path[1..], leaf)
      case _ => false
  }

  /** Texts of arguments are read as what they encode. On the path no container is too deep and no object has a
      binary marker, no key is sensitive, and every position is among the first 128. */
  ghost predicate IsKept(reader: Reader, v: Json, path: seq<Step>, leaf: Json, depth: nat, hint: Option<string>)
    decreases |path|
  {
    if path == [] then v == leaf
    else
      match (Read(reader, v, hint), path[0])
      case (Object(fields), Key(k)) =>
        && depth < Levels(hint) && !HasBinaryMarker(fields)
        && exists i :: 0 <= i < |fields| && KeptAt(fields, i, k)
             && IsKept(reader, fields[i].value, path[1..], leaf, depth + 1, Some(k))
      case (Array(items), Index(i)) =>
        depth < Levels(hint) && i < |items| && i < 128 && IsKept(reader, items[i], path[1..], leaf, depth + 1, hint)
      case _ => false
  }

  /** Field `i` is under this key, and neither cut off, nor redacted, nor in the marker's place. */
  predicate KeptAt(fields: seq<Field>, i: nat, key: string)
    requires i < |fields|
  {
    fields[i].key == key && i < 128 && !SensitiveKey(key) && (|fields| > 128 ==> key != "\U{2026}")
  }

  /** The last key on the path. */
  function HintAt(path: seq<Step>, hint: Option<string>): Option<string> {
    if path == [] then hint
    else HintAt(path[1..], if path[0].Key? then Some(path[0].key) else hint)
  }

  lemma InsertKeepsOthers(fields: seq<Field>, key: string, value: Json, i: nat)
    requires i < |fields| && fields[i].key != key
    ensures exists j :: 0 <= j < |Insert(fields, key, value)| && Insert(fields, key, value)[j] == fields[i]
  {
    var p, out := Position(fields, key), Insert(fields, key, value);
    if p < |fields| && fields[p].key == key {
      assert out[i] == fields[i];
    } else {
      assert out[if i < p then i else i + 1] == fields[i];
    }
  }

  lemma KeptFieldIsThere(reader: Reader, fields: seq<Field>, depth: nat, i: nat)
    requires depth <= DEEPEST_CONTAINER && i < |fields| && KeptAt(fields, i, fields[i].key)
    ensures Field(fields[i].key, RedactValue(reader, fields[i].value, depth + 1, Some(fields[i].key)))
         in RedactFields(reader, fields, depth)
  {
    KeptFieldsAre(reader, fields, depth);
    if |fields| > 128 {
      InsertKeepsOthers(KeptFields(reader, fields, depth), MORE_KEY, String(MORE_FIELDS), i);
    }
  }

  /** What is kept is in its old place, rewritten by itself. */
  lemma {:induction false} KeptIsRewritten(
      reader: Reader, v: Json, path: seq<Step>, leaf: Json, depth: nat, hint: Option<string>)
    requires IsKept(reader, v, path, leaf, depth, hint)
    ensures Holds(RedactValue(reader, v, depth, hint), path, RedactValue(reader, leaf, depth + |path|, HintAt(path, hint)))
    decreases |path|, 1
  {
    if path != [] {
      var w := Read(reader, v, hint);
      SameAsRead(reader, v, depth, hint);
      DepthIsLimited(w, depth, hint);
      match w {
        case Object(fields) =>
          KeptFieldIsRewritten(reader, fields, path, leaf, depth);
        case Array(items) =>
          KeptIsRewritten(reader, items[path[0].i], path[1..], leaf, depth + 1, hint);
      }
    }
  }

  lemma {:induction false} KeptFieldIsRewritten(reader: Reader, fields: seq<Field>, path: seq<Step>, leaf: Json, depth: nat)
    requires path != [] && path[0].Key? && depth <= DEEPEST_CONTAINER
    requires exists i :: 0 <= i < |fields| && KeptAt(fields, i, path[0].key)
               && IsKept(reader, fields[i].value, path[1..], leaf, depth + 1, Some(path[0].key))
    ensures Holds(Object(RedactFields(reader, fields, depth)), path,
                  RedactValue(reader, leaf, depth + |path|, HintAt(path[1..], Some(path[0].key))))
    decreases |path|, 0
  {
    var k := path[0].key;
    var i :| 0 <= i < |fields| && KeptAt(fields, i, k)
      && IsKept(reader, fields[i].value, path[1..], leaf, depth + 1, Some(k));
    KeptIsRewritten(reader, fields[i].value, path[1..], leaf, depth + 1, Some(k));
    KeptFieldHolds(reader, fields, depth, i, path, RedactValue(reader, leaf, depth + |path|, HintAt(path[1..], Some(k))));
  }

  lemma KeptFieldHolds(reader: Reader, fields: seq<Field>, depth: nat, i: nat, path: seq<Step>, leaf: Json)
    requires depth <= DEEPEST_CONTAINER && path != [] && path[0].Key? && i < |fields| && KeptAt(fields, i, path[0].key)
    requires Holds(RedactValue(reader, fields[i].value, depth + 1, Some(path[0].key)), path[1..], leaf)
    ensures Holds(Object(RedactFields(reader, fields, depth)), path, leaf)
  {
    var k := path[0].key;
    KeptFieldIsThere(reader, fields, depth, i);
    FieldHolds(RedactFields(reader, fields, depth), k, RedactValue(reader, fields[i].value, depth + 1, Some(k)), path, leaf);
  }

  lemma FieldHolds(fields: seq<Field>, key: string, value: Json, path: seq<Step>, leaf: Json)
    requires path != [] && path[0] == Key(key) && Field(key, value) in fields && Holds(value, path[1..], leaf)
    ensures Holds(Object(fields), path, leaf)
  {
    var j :| 0 <= j < |fields| && fields[j] == Field(key, value);
    assert Holds(fields[j].value, path[1..], leaf);
  }

  /** So harmless parts of a value survive whatever is cut around them. Numbers, booleans and nulls are harmless. */
  lemma HarmlessPartsAreKept(reader: Reader, v: Json, path: seq<Step>, leaf: Json, depth: nat, hint: Option<string>)
    requires IsKept(reader, v, path, leaf, depth, hint) && Harmless(reader, leaf, depth + |path|, HintAt(path, hint))
    ensures Holds(RedactValue(reader, v, depth, hint), path, leaf)
  {
    KeptIsRewritten(reader, v, path, leaf, depth, hint);
    HarmlessIsKept(reader, leaf, depth + |path|, HintAt(path, hint));
  }

  predicate IsScalar(v: Json) {
    v.Null? || v.Bool? || v.Number?
  }

  /** The marker replaces a field under its own key, so a field of that key with another value is gone. */
  lemma MarkerIsAlone(fields: seq<Field>, f: Field)
    requires SortedKeys(fields) && f in Insert(fields, f.key, String(MORE_FIELDS))
    ensures f.value == String(MORE_FIELDS)
  {
    var p := Position(fields, f.key);
    LessIrreflexive(f.key);
    assert forall j :: 0 <= j < p ==> fields[j].key != f.key;
    assert forall j :: p < j < |fields| ==> fields[j].key != f.key;
  }

  lemma KeptFieldsAreSorted(reader: Reader, fields: seq<Field>, depth: nat)
    requires depth <= DEEPEST_CONTAINER && SortedKeys(fields)
    ensures SortedKeys(KeptFields(reader, fields, depth))
  {
    KeptFieldsAre(reader, fields, depth);
  }

  lemma OneOfTheFields(reader: Reader, fields: seq<Field>, depth: nat, f: Field) returns (i: nat)
    requires depth <= DEEPEST_CONTAINER && SortedKeys(fields) && f in RedactFields(reader, fields, depth) && !f.value.String?
    ensures i < |fields| && KeptAt(fields, i, f.key)
    ensures f.value == RedactValue(reader, fields[i].value, depth + 1, Some(f.key))
  {
    var kept := KeptFields(reader, fields, depth);
    KeptFieldsAre(reader, fields, depth);
    KeptFieldsAreSorted(reader, fields, depth);
    InsertBringsOne(kept, MORE_KEY, String(MORE_FIELDS));
    assert f in kept;
    if |fields| > 128 && f.key == MORE_KEY { MarkerIsAlone(kept, f); }
    i :| 0 <= i < |kept| && kept[i] == f;
  }

  lemma ScalarsComeFromScalars(reader: Reader, v: Json, depth: nat, hint: Option<string>)
    requires IsScalar(RedactValue(reader, v, depth, hint))
    ensures v == RedactValue(reader, v, depth, hint)
  {
    SameAsRead(reader, v, depth, hint);
  }

  /** And nothing is made up: a number, a boolean or a null in the output is that of the input in the same place. */
  lemma {:induction false} NothingIsMadeUp(
      reader: Reader, v: Json, path: seq<Step>, leaf: Json, depth: nat, hint: Option<string>)
    requires ReadsJson(reader) && WellFormed(v) && IsScalar(leaf)
    requires Holds(RedactValue(reader, v, depth, hint), path, leaf)
    ensures IsKept(reader, v, path, leaf, depth, hint)
    decreases |path|, 1
  {
    if path == [] {
      ScalarsComeFromScalars(reader, v, depth, hint);
    } else {
      var w := Read(reader, v, hint);
      SameAsRead(reader, v, depth, hint);
      assert WellFormed(w);
      if IsContainer(w) { DepthIsLimited(w, depth, hint); }
      match w {
        case Object(fields) =>
          FieldsAreNotMadeUp(reader, fields, path, leaf, depth);
        case Array(items) =>
          NothingIsMadeUp(reader, items[path[0].i], path[1..], leaf, depth + 1, hint);
        case _ =>
      }
    }
  }

  lemma {:induction false} FieldsAreNotMadeUp(reader: Reader, fields: seq<Field>, path: seq<Step>, leaf: Json, depth: nat)
    requires ReadsJson(reader) && WellFormed(Object(fields)) && IsScalar(leaf) && depth <= DEEPEST_CONTAINER
    requires path != [] && path[0].Key? && Holds(Object(RedactFields(reader, fields, depth)), path, leaf)
    ensures exists i :: 0 <= i < |fields| && KeptAt(fields, i, path[0].key)
              && IsKept(reader, fields[i].value, path[1..], leaf, depth + 1, Some(path[0].key))
    decreases |path|, 0
  {
    var out, k := RedactFields(reader, fields, depth), path[0].key;
    var j :| 0 <= j < |out| && out[j].key == k && Holds(out[j].value, path[1..], leaf);
    var i := OneOfTheFields(reader, fields, depth, out[j]);
    NothingIsMadeUp(reader, fields[i].value, path[1..], leaf, depth + 1, Some(k));
  }

  // --- What stands for the rest -----------------------------------------------------------------

  /** A text that is only too long keeps its head and says how long it was, in 98304 characters. */
  lemma LongTextKeepsItsHead(reader: Reader, text: string, depth: nat, hint: Option<string>) returns (n: nat)
    requires 98_304 < |text| <= MAX_TEXT_LENGTH && !IsEncoded(reader, text, hint)
    requires !SensitiveText(text) && !Media(text, hint) && !Placeholder(text)
    ensures n < |text|
    ensures var out := text[..n] + "\U{2026} <" + Decimal(|text|) + " chars total>";
      |out| == 98_304 && RedactValue(reader, String(text), depth, hint) == String(out)
  {
    n := ClippedHead(text);
    assert Decoded(reader, text, hint) == None;
    UndecodedStep(reader, text, depth, hint);
  }

  lemma ClippedHead(text: string) returns (n: nat)
    requires 98_304 < |text| <= MAX_TEXT_LENGTH
    ensures n < |text| && |Clip(text)| == 98_304
    ensures Clip(text) == text[..n] + "\U{2026} <" + Decimal(|text|) + " chars total>"
  {
    ClipShape(text);
    n := ClipPrefix(|text|);
    assert text[..n] + (MORE_KEY + " <" + Decimal(|text|) + " chars total>")
        == text[..n] + "\U{2026} <" + Decimal(|text|) + " chars total>";
  }

  /** The texts that stand for what is not shown. */
  lemma ReplacementsAreNamed(reader: Reader, v: Json, depth: nat, hint: Option<string>)
    ensures v.Object? && depth >= Levels(hint) ==> RedactValue(reader, v, depth, hint) == String("<object omitted>")
    ensures v.Array? && depth >= Levels(hint) ==> RedactValue(reader, v, depth, hint) == String("<array omitted>")
    ensures v.Object? && depth < Levels(hint) && HasBinaryMarker(v.fields) ==>
      RedactValue(reader, v, depth, hint) == String("<_vifuBinary object omitted>")
    ensures v.String? && !IsEncoded(reader, v.text, hint) && !Placeholder(v.text) && SensitiveText(v.text) ==>
      RedactValue(reader, v, depth, hint) == String("[REDACTED sensitive value]")
    ensures (v.String? && !IsEncoded(reader, v.text, hint) && !Placeholder(v.text) && !SensitiveText(v.text)
             && Media(v.text, hint)) ==>
      RedactValue(reader, v, depth, hint) == String("<media/binary omitted: " + Decimal(|v.text|) + " chars>")
  {
    if IsContainer(v) { DepthIsLimited(v, depth, hint); }
    assert "<" + "object" + " omitted>" == "<object omitted>";
    assert "<" + "array" + " omitted>" == "<array omitted>";
  }

  /** The value of a sensitive key is replaced, and an object that loses fields says so. */
  lemma RedactedFieldsAreNamed(reader: Reader, fields: seq<Field>, depth: nat, hint: Option<string>, i: nat)
    requires depth < Levels(hint) && !HasBinaryMarker(fields) && i < |fields|
    ensures SensitiveKey(fields[i].key) && i < 128 ==>
      Holds(RedactValue(reader, Object(fields), depth, hint), [Key(fields[i].key)], String("[REDACTED]"))
    ensures |fields| > 128 ==>
      Holds(RedactValue(reader, Object(fields), depth, hint), [Key("\U{2026}")], String("<more fields>"))
  {
    DepthIsLimited(Object(fields), depth, hint);
    var kept, out := KeptFields(reader, fields, depth), RedactFields(reader, fields, depth);
    KeptFieldsAre(reader, fields, depth);
    if |fields| > 128 {
      MarkerIsThere(kept);
      FieldHolds(out, MORE_KEY, String(MORE_FIELDS), [Key(MORE_KEY)], String(MORE_FIELDS));
    }
    if SensitiveKey(fields[i].key) && i < 128 {
      MoreKeyIsNotSensitive();
      if |fields| > 128 { InsertKeepsOthers(kept, MORE_KEY, String(MORE_FIELDS), i); }
      assert kept[i] in out;
      FieldHolds(out, fields[i].key, String(REDACTED), [Key(fields[i].key)], String(REDACTED));
    }
  }

  lemma MarkerIsThere(fields: seq<Field>)
    ensures Field(MORE_KEY, String(MORE_FIELDS)) in Insert(fields, MORE_KEY, String(MORE_FIELDS))
  {
    var p, out := Position(fields, MORE_KEY), Insert(fields, MORE_KEY, String(MORE_FIELDS));
    assert out[p] == Field(MORE_KEY, String(MORE_FIELDS));
  }

  // --- Sensitive keys ---------------------------------------------------------------------------

  predicate SecretWord(word: string) {
    || word == "authorization" || word == "apikey" || word == "accesstoken" || word == "refreshtoken" || word == "token"
    || word == "secret" || word == "password" || word == "credential" || word == "cookie" || word == "session"
    || word == "sessionid"
  }

  lemma SecretWordsAreListed(word: string) returns (i: nat)
    requires SecretWord(word)
    ensures i < |SENSITIVE_KEYS| && SENSITIVE_KEYS[i] == word && forall k :: 0 <= k < |word| ==> 'a' <= word[k] <= 'z'
  {
    i := if word == "authorization" then 0 else if word == "apikey" then 1 else if word == "accesstoken" then 2
         else if word == "refreshtoken" then 3 else if word == "token" then 4 else if word == "secret" then 5
         else if word == "password" then 6 else if word == "credential" then 7 else if word == "cookie" then 8
         else if word == "session" then 9 else 10;
  }

  /** A key is sensitive if it ends in one of these words; */
  lemma SecretWordsAreSensitive(prefix: string, word: string)
    requires SecretWord(word)
    ensures SensitiveKey(prefix + word)
  {
    var i := SecretWordsAreListed(word);
    EndingIsFound(prefix, word, i);
  }

  lemma EndingIsFound(prefix: string, word: string, i: nat)
    requires i < |SENSITIVE_KEYS| && SENSITIVE_KEYS[i] == word && forall k :: 0 <= k < |word| ==> 'a' <= word[k] <= 'z'
    ensures SensitiveKey(prefix + word)
  {
    LettersAppend(prefix, word);
    LowerCaseLetters(word);
    assert EndsWith(Letters(prefix + word), SENSITIVE_KEYS[i]);
  }

  /** whatever punctuation and capitals are in it. */
  lemma SpellingDoesNotMatter(a: string, c: char, b: string)
    ensures !IsAsciiAlphanumeric(c) ==> (SensitiveKey(a + [c] + b) <==> SensitiveKey(a + b))
    ensures SensitiveKey(a + [c] + b) <==> SensitiveKey(a + [LowerChar(c)] + b)
  {
    LettersAppend(a, b);
    LettersAppend(a + [c], b);
    LettersAppend(a, [c]);
    LettersAppend(a + [LowerChar(c)], b);
    LettersAppend(a, [LowerChar(c)]);
    assert [c][1..] == [] && [LowerChar(c)][1..] == [];
  }

  // --- Sensitive texts --------------------------------------------------------------------------

  predicate SecretMarker(marker: string) {
    || marker == "authorization:" || marker == "authorization=" || marker == "bearer " || marker == "basic "
    || marker == "api_key=" || marker == "api-key=" || marker == "apikey=" || marker == "access_token="
    || marker == "refresh_token=" || marker == "token=" || marker == "password=" || marker == "password:"
    || marker == "secret=" || marker == "secret:" || marker == "credential=" || marker == "cookie:" || marker == "session="
  }

  lemma SecretMarkersAreListed(marker: string) returns (i: nat)
    requires SecretMarker(marker)
    ensures i < |SENSITIVE_MARKERS| && SENSITIVE_MARKERS[i] == marker
  {
    i := if marker == "authorization:" then 0 else if marker == "authorization=" then 1 else if marker == "bearer " then 2
         else if marker == "basic " then 3 else if marker == "api_key=" then 4 else if marker == "api-key=" then 5
         else if marker == "apikey=" then 6 else if marker == "access_token=" then 7
         else if marker == "refresh_token=" then 8 else if marker == "token=" then 9 else if marker == "password=" then 10
         else if marker == "password:" then 11 else if marker == "secret=" then 12 else if marker == "secret:" then 13
         else if marker == "credential=" then 14 else if marker == "cookie:" then 15 else 16;
  }

  lemma ListedMarkersAreSecret(i: nat)
    requires i < |SENSITIVE_MARKERS|
    ensures SecretMarker(SENSITIVE_MARKERS[i])
  {
  }

  /** A text is sensitive exactly when it has one of these markers in it, in whatever case, apart from the blanks around
      it. */
  lemma SensitiveTextsHaveMarkers(text: string)
    ensures SensitiveText(text) <==> exists marker :: SecretMarker(marker) && Contains(Lower(Trim(text)), marker)
  {
    if SensitiveText(text) {
      var i :| 0 <= i < |SENSITIVE_MARKERS| && Contains(Lower(Trim(text)), SENSITIVE_MARKERS[i]);
      ListedMarkersAreSecret(i);
    }
    forall marker | SecretMarker(marker) && Contains(Lower(Trim(text)), marker)
      ensures SensitiveText(text)
    {
      var i := SecretMarkersAreListed(marker);
    }
  }

  // --- Media ------------------------------------------------------------------------------------

  predicate MediaWord(word: string) {
    word == "image" || word == "audio" || word == "media" || word == "binary" || word == "base64"
  }

  lemma MediaWordsAreListed(word: string) returns (i: nat)
    requires MediaWord(word)
    ensures i < |MEDIA_MARKERS| && MEDIA_MARKERS[i] == word
  {
    i := if word == "image" then 0 else if word == "audio" then 1 else if word == "media" then 2
         else if word == "binary" then 3 else 4;
  }

  lemma ListedWordsAreMedia(i: nat)
    requires i < |MEDIA_MARKERS|
    ensures MediaWord(MEDIA_MARKERS[i])
  {
  }

  /** A key stands for media exactly when its letters are `data` or have one of five words in them. */
  lemma MediaKeysHaveWords(key: string)
    ensures MediaKey(key) <==> Letters(key) == "data" || exists word :: MediaWord(word) && Contains(Letters(key), word)
  {
    if MediaKey(key) && Letters(key) != "data" {
      var i :| 0 <= i < |MEDIA_MARKERS| && Contains(Letters(key), MEDIA_MARKERS[i]);
      ListedWordsAreMedia(i);
    }
    forall word | MediaWord(word) && Contains(Letters(key), word)
      ensures MediaKey(key)
    {
      var i := MediaWordsAreListed(word);
    }
  }

  predicate IsBase64Char(c: char) {
    'a' <= c <= 'z' || 'A' <= c <= 'Z' || '0' <= c <= '9' || c == '+' || c == '/' || c == '='
  }

  /** A text is media exactly when it is under such a key, begins with `data:` in whatever case after its blanks, or is
      at least 128 characters of base64, a multiple of four, apart from the blanks around it. */
  lemma MediaTexts(text: string, hint: Option<string>)
    ensures Media(text, hint)
      <==> || (hint.Some? && MediaKey(hint.value))
           || StartsWith(Lower(TrimStart(text)), "data:")
           || (|Trim(text)| >= 128 && |Trim(text)| % 4 == 0
               && forall i :: 0 <= i < |Trim(text)| ==> IsBase64Char(Trim(text)[i]))
  {
  }

  // --- Values that stay too large ---------------------------------------------------------------

  function ShapeName(v: Json): string {
    if v.Null? then "null" else if v.Bool? then "boolean" else if v.Number? then "number" else if v.String? then "string"
    else if v.Array? then "array" else "object"
  }

  /** A summary of more than 131072 bytes gives way to the name of the value's kind. */
  lemma OversizedIsNamed(reader: Reader, v: Json)
    ensures EncodedSize(RedactValue(reader, v, 0, None)) > 131_072 ==>
      CanonicalSummary(reader, v)
      == TraceIoSummary(Object([Field("summary", String(ShapeName(v))), Field("truncated", Bool(true))]), true)
    ensures EncodedSize(RedactValue(reader, v, 0, None)) <= 131_072 ==>
      CanonicalSummary(reader, v).value == RedactValue(reader, v, 0, None)
  {
    assert Shape(v) == ShapeName(v);
  }
}
