/** The canonical form is a fixpoint: rewriting a summary again changes nothing, exactly for the
    inputs that meet `Stable`, a check along the branches the rewriter takes. */
module TraceIoFixpoint {
  import opened Outcomes
  import opened Text
  import opened JsonValues
  import opened TraceIo
  import opened ClippedText

  /** An object that loses fields has room for the marker of the loss: its key sorts after every kept
      key, or is one of them. */
  ghost predicate MarkerFits(fields: seq<Field>) {
    || |fields| <= MAX_ITEMS
    || (exists i :: 0 <= i < MAX_ITEMS && fields[i].key == MORE_KEY)
    || (forall i :: 0 <= i < MAX_ITEMS ==> Less(fields[i].key, MORE_KEY))
  }

  /** No visited object misplaces the marker of its lost fields, and no visited text exposes a
      credential scheme when it is clipped. */
  ghost predicate Stable(reader: Reader, v: Json, depth: nat, hint: Option<string>)
    decreases Remaining(depth), if v.String? then 3 else 2
  {
    if Omitted(v, depth, hint) then true
    else
      match v
      case Object(fields) => HasBinaryMarker(fields) || (MarkerFits(fields) && StableFields(reader, fields, depth))
      case Array(items) =>
        forall i :: 0 <= i < Min(|items|, MAX_ITEMS) ==> Stable(reader, items[i], depth + 1, hint)
      case String(text) =>
        var decoded := Decoded(reader, text, hint);
        if decoded.Some? then Stable(reader, decoded.value, depth, hint)
        else !(IsClipped(text, hint) && ExposesScheme(text))
      case _ => true
  }

  ghost predicate StableFields(reader: Reader, fields: seq<Field>, depth: nat)
    requires depth <= DEEPEST_CONTAINER
    decreases Remaining(depth), 1
  {
    forall i :: 0 <= i < Min(|fields|, MAX_ITEMS) ==>
      Overwritten(fields, i) || StableField(reader, fields[i], depth)
  }

  /** The marker of the lost fields takes the place of this one. */
  predicate Overwritten(fields: seq<Field>, i: nat)
    requires i < |fields|
  {
    |fields| > MAX_ITEMS && fields[i].key == MORE_KEY
  }

  ghost predicate StableField(reader: Reader, field: Field, depth: nat)
    requires depth <= DEEPEST_CONTAINER
    decreases Remaining(depth), 0
  {
    SensitiveKey(field.key) || Stable(reader, field.value, depth + 1, Some(field.key))
  }

  // --- Replacements stay ------------------------------------------------------------------------

  lemma NotDecoded(reader: Reader, text: string, hint: Option<string>)
    requires ReadsJson(reader)
    requires text == REDACTED || text == REDACTED_VALUE || (text != [] && text[|text| - 1] == '>')
    ensures Decoded(reader, text, hint) == None
  {
  }

  lemma PlaceholderStays(reader: Reader, text: string, depth: nat, hint: Option<string>)
    requires ReadsJson(reader) && Placeholder(text)
    requires text == REDACTED || text == REDACTED_VALUE || text[|text| - 1] == '>'
    ensures RedactValue(reader, String(text), depth, hint) == String(text)
  {
    NotDecoded(reader, text, hint);
  }

  lemma OmittedMark(v: Json)
    ensures Placeholder("<" + Shape(v) + " omitted>")
    ensures ("<" + Shape(v) + " omitted>")[|Shape(v)| + 9] == '>'
  {
    var mark := "<" + Shape(v) + " omitted>";
    assert mark[..1] == "<";
    assert mark[|mark| - 9..] == " omitted>";
  }

  lemma MoreKeyIsNotSensitive()
    ensures !SensitiveKey(MORE_KEY)
  {
    assert Letters(MORE_KEY) == [];
    assert forall i :: 0 <= i < |SENSITIVE_KEYS| ==> |SENSITIVE_KEYS[i]| > 0;
  }

  lemma BinaryKeyIsNotSensitive()
    ensures !SensitiveKey(BINARY_KEY)
  {
    HarmlessKey(BINARY_KEY);
  }

  /** A key that ends in these letters is not sensitive. */
  lemma HarmlessKey(key: string)
    requires |key| > 1
    requires var n := |key|; (key[n - 2] == 'r' && key[n - 1] == 'y') || (key[n - 2] == 'e' && key[n - 1] == 'd')
    ensures !SensitiveKey(key)
  {
    var n := |key| - 2;
    assert key == key[..n] + key[n..];
    LettersAppend(key[..n], key[n..]);
    LowerCaseLetters(key[n..]);
    HarmlessEnding(Letters(key));
  }

  /** No sensitive key ends like this. */
  lemma HarmlessEnding(letters: string)
    requires |letters| > 1
    requires var n := |letters|;
      (letters[n - 2] == 'r' && letters[n - 1] == 'y') || (letters[n - 2] == 'e' && letters[n - 1] == 'd')
    ensures forall i :: 0 <= i < |SENSITIVE_KEYS| ==> !EndsWith(letters, SENSITIVE_KEYS[i])
  {
    forall i | 0 <= i < |SENSITIVE_KEYS|
      ensures !EndsWith(letters, SENSITIVE_KEYS[i])
    {
      LastTwo(letters, SENSITIVE_KEYS[i]);
    }
  }

  lemma {:induction false} LowerCaseLetters(key: string)
    requires forall i :: 0 <= i < |key| ==> 'a' <= key[i] <= 'z'
    ensures Letters(key) == key
  {
    if key != [] { LowerCaseLetters(key[1..]); }
  }

  lemma {:induction false} LettersAppend(a: string, b: string)
    ensures Letters(a + b) == Letters(a) + Letters(b)
  {
    if a == [] {
      assert a + b == b;
    } else {
      LettersAppend(a[1..], b);
      assert (a + b)[1..] == a[1..] + b;
    }
  }

  lemma LastTwo(s: string, suffix: string)
    requires |suffix| > 1
    ensures EndsWith(s, suffix) ==> s[|s| - 1] == suffix[|suffix| - 1] && s[|s| - 2] == suffix[|suffix| - 2]
  {
    assert EndsWith(s, suffix) ==> forall k :: 0 <= k < |suffix| ==> s[|s| - |suffix| + k] == suffix[k];
  }

  // --- The fixpoint -----------------------------------------------------------------------------

  /** One field of the rewritten object. */
  function Entry(reader: Reader, field: Field, depth: nat): Field
    requires depth <= DEEPEST_CONTAINER
  {
    Field(field.key,
      if SensitiveKey(field.key) then String(REDACTED)
      else RedactValue(reader, field.value, depth + 1, Some(field.key)))
  }

  lemma KeptFieldsAre(reader: Reader, fields: seq<Field>, depth: nat)
    requires depth <= DEEPEST_CONTAINER
    ensures |KeptFields(reader, fields, depth)| == Min(|fields|, MAX_ITEMS)
    ensures forall i :: 0 <= i < Min(|fields|, MAX_ITEMS) ==>
      KeptFields(reader, fields, depth)[i] == Entry(reader, fields[i], depth)
  {
  }

  lemma MoreEntryStays(reader: Reader, depth: nat)
    requires ReadsJson(reader) && depth <= DEEPEST_CONTAINER
    ensures Entry(reader, Field(MORE_KEY, String(MORE_FIELDS)), depth) == Field(MORE_KEY, String(MORE_FIELDS))
  {
    MoreKeyIsNotSensitive();
    PlaceholderStays(reader, MORE_FIELDS, depth + 1, Some(MORE_KEY));
  }

  lemma {:induction false} RedactTwice(reader: Reader, v: Json, depth: nat, hint: Option<string>)
    requires ReadsJson(reader) && WellFormed(v)
    ensures RedactValue(reader, RedactValue(reader, v, depth, hint), depth, hint) == RedactValue(reader, v, depth, hint)
        <==> Stable(reader, v, depth, hint)
    decreases Remaining(depth), if v.String? then 4 else 2
  {
    if Omitted(v, depth, hint) {
      OmittedMark(v);
      PlaceholderStays(reader, "<" + Shape(v) + " omitted>", depth, hint);
    } else {
      match v {
        case Object(fields) =>
          if HasBinaryMarker(fields) {
            PlaceholderStays(reader, BINARY_OMITTED, depth, hint);
          } else {
            RedactFieldsTwice(reader, fields, depth);
            NoNewBinaryMarker(reader, fields, depth);
          }
        case Array(items) =>
          RedactItemsTwice(reader, items, depth, hint);
        case String(text) =>
          RedactStringTwice(reader, text, depth, hint);
        case _ =>
      }
    }
  }

  lemma {:induction false} RedactStringTwice(reader: Reader, text: string, depth: nat, hint: Option<string>)
    requires ReadsJson(reader) && WellFormed(String(text))
    ensures RedactValue(reader, RedactValue(reader, String(text), depth, hint), depth, hint)
         == RedactValue(reader, String(text), depth, hint)
        <==> Stable(reader, String(text), depth, hint)
    decreases Remaining(depth), 3
  {
    var decoded := Decoded(reader, text, hint);
    if decoded.Some? {
      RedactTwice(reader, decoded.value, depth, hint);
    } else {
      var out := RedactText(text, hint);
      StaysUndecoded(reader, text, hint);
      UndecodedStep(reader, text, depth, hint);
      UndecodedStep(reader, out, depth, hint);
      RedactTextTwice(text, hint);
    }
  }

  lemma UndecodedStep(reader: Reader, text: string, depth: nat, hint: Option<string>)
    requires Decoded(reader, text, hint) == None
    ensures RedactValue(reader, String(text), depth, hint) == String(RedactText(text, hint))
  {
  }

  lemma StaysUndecoded(reader: Reader, text: string, hint: Option<string>)
    requires ReadsJson(reader) && |text| <= MAX_TEXT_LENGTH && Decoded(reader, text, hint) == None
    ensures Decoded(reader, RedactText(text, hint), hint) == None
  {
    RedactedTextEnding(text, hint);
    if RedactText(text, hint) != text { NotDecoded(reader, RedactText(text, hint), hint); }
  }

  lemma RedactedTextEnding(text: string, hint: Option<string>)
    requires |text| <= MAX_TEXT_LENGTH
    ensures var out := RedactText(text, hint);
      out == text || out == REDACTED_VALUE || (out != [] && out[|out| - 1] == '>')
  {
    if IsClipped(text, hint) { ClipShape(text); }
  }

  lemma {:induction false} RedactItemsTwice(reader: Reader, items: seq<Json>, depth: nat, hint: Option<string>)
    requires ReadsJson(reader) && WellFormed(Array(items)) && depth <= DEEPEST_CONTAINER
    ensures RedactItems(reader, RedactItems(reader, items, depth, hint), depth, hint)
         == RedactItems(reader, items, depth, hint)
        <==> forall i :: 0 <= i < Min(|items|, MAX_ITEMS) ==> Stable(reader, items[i], depth + 1, hint)
    decreases Remaining(depth), 1
  {
    var once := RedactItems(reader, items, depth, hint);
    var twice := RedactItems(reader, once, depth, hint);
    forall i | 0 <= i < |once|
      ensures twice[i] == once[i] <==> Stable(reader, items[i], depth + 1, hint)
    {
      RedactTwice(reader, items[i], depth + 1, hint);
    }
    assert (forall i :: 0 <= i < |once| ==> twice[i] == once[i]) <==> twice == once;
  }

  lemma {:induction false} EntryTwice(reader: Reader, field: Field, depth: nat)
    requires ReadsJson(reader) && WellFormed(field.value) && depth <= DEEPEST_CONTAINER
    ensures Entry(reader, Entry(reader, field, depth), depth) == Entry(reader, field, depth)
        <==> StableField(reader, field, depth)
    decreases Remaining(depth), 0
  {
    if !SensitiveKey(field.key) {
      var v := RedactValue(reader, field.value, depth + 1, Some(field.key));
      assert Entry(reader, Field(field.key, v), depth).value == RedactValue(reader, v, depth + 1, Some(field.key));
      RedactTwice(reader, field.value, depth + 1, Some(field.key));
    }
  }

  lemma {:induction false} RedactFieldsTwice(reader: Reader, fields: seq<Field>, depth: nat)
    requires ReadsJson(reader) && WellFormed(Object(fields)) && depth <= DEEPEST_CONTAINER
    ensures RedactFields(reader, RedactFields(reader, fields, depth), depth) == RedactFields(reader, fields, depth)
        <==> MarkerFits(fields) && StableFields(reader, fields, depth)
    decreases Remaining(depth), 1
  {
    var kept := KeptFields(reader, fields, depth);
    KeptFieldsAre(reader, fields, depth);
    forall i | 0 <= i < |kept|
      ensures Entry(reader, kept[i], depth) == kept[i] <==> StableField(reader, fields[i], depth)
    {
      EntryTwice(reader, fields[i], depth);
    }
    if |fields| <= MAX_ITEMS {
      KeptFieldsAre(reader, kept, depth);
      SameEntries(KeptFields(reader, kept, depth), kept);
    } else if exists q :: 0 <= q < MAX_ITEMS && fields[q].key == MORE_KEY {
      var q :| 0 <= q < MAX_ITEMS && fields[q].key == MORE_KEY;
      MarkerReplaces(reader, fields, depth, q);
    } else if forall i :: 0 <= i < MAX_ITEMS ==> Less(fields[i].key, MORE_KEY) {
      MarkerGoesLast(reader, fields, depth);
    } else {
      MarkerGoesBetween(reader, fields, depth);
    }
  }

  lemma SameEntries(a: seq<Field>, b: seq<Field>)
    requires |a| == |b|
    ensures a == b <==> forall i :: 0 <= i < |b| ==> a[i] == b[i]
  {
  }

  lemma MarkerReplaces(reader: Reader, fields: seq<Field>, depth: nat, q: nat)
    requires ReadsJson(reader) && WellFormed(Object(fields)) && depth <= DEEPEST_CONTAINER
    requires |fields| > MAX_ITEMS > q && fields[q].key == MORE_KEY
    ensures var kept, out := KeptFields(reader, fields, depth), RedactFields(reader, fields, depth);
      RedactFields(reader, out, depth) == out
      <==> forall i :: 0 <= i < MAX_ITEMS && fields[i].key != MORE_KEY ==>
             Entry(reader, kept[i], depth) == kept[i]
  {
    var kept, out := KeptFields(reader, fields, depth), RedactFields(reader, fields, depth);
    KeptFieldsAre(reader, fields, depth);
    InsertPresent(kept, MORE_KEY, String(MORE_FIELDS), q);
    KeptFieldsAre(reader, out, depth);
    var again := KeptFields(reader, out, depth);
    UniqueKey(fields, q);
    forall i | 0 <= i < MAX_ITEMS
      ensures again[i] == out[i] <==> i == q || Entry(reader, kept[i], depth) == kept[i]
    {
      if i == q { MoreEntryStays(reader, depth); }
    }
    SameEntries(again, out);
  }

  lemma UniqueKey(fields: seq<Field>, q: nat)
    requires SortedKeys(fields) && q < |fields|
    ensures forall i :: 0 <= i < |fields| && fields[i].key == fields[q].key ==> i == q
  {
    LessIrreflexive(fields[q].key);
  }

  lemma MarkerGoesLast(reader: Reader, fields: seq<Field>, depth: nat)
    requires ReadsJson(reader) && depth <= DEEPEST_CONTAINER
    requires |fields| > MAX_ITEMS && forall i :: 0 <= i < MAX_ITEMS ==> Less(fields[i].key, MORE_KEY)
    ensures var kept, out := KeptFields(reader, fields, depth), RedactFields(reader, fields, depth);
      RedactFields(reader, out, depth) == out
      <==> forall i :: 0 <= i < MAX_ITEMS ==> Entry(reader, kept[i], depth) == kept[i]
  {
    var kept, out := KeptFields(reader, fields, depth), RedactFields(reader, fields, depth);
    KeptFieldsAre(reader, fields, depth);
    InsertLast(kept, MORE_KEY, String(MORE_FIELDS));
    KeptFieldsAre(reader, out, depth);
    var again := KeptFields(reader, out, depth);
    InsertLast(again, MORE_KEY, String(MORE_FIELDS));
    SameEntries(again, kept);
    assert out[..MAX_ITEMS] == kept;
    assert (again + [Field(MORE_KEY, String(MORE_FIELDS))])[..MAX_ITEMS] == again;
  }

  /** The marker pushes the last kept field out of the next pass. */
  lemma MarkerGoesBetween(reader: Reader, fields: seq<Field>, depth: nat)
    requires depth <= DEEPEST_CONTAINER
    requires |fields| > MAX_ITEMS && !MarkerFits(fields)
    ensures var out := RedactFields(reader, fields, depth);
      |out| == MAX_ITEMS + 1 && |RedactFields(reader, out, depth)| == MAX_ITEMS
  {
    var kept, out := KeptFields(reader, fields, depth), RedactFields(reader, fields, depth);
    KeptFieldsAre(reader, fields, depth);
    InsertAbsent(kept, MORE_KEY, String(MORE_FIELDS));
    KeptFieldsAre(reader, out, depth);
    InsertedAgain(kept, KeptFields(reader, out, depth), MORE_KEY, String(MORE_FIELDS));
  }

  /** A key that was put before the last of some fields is found again among as many of the new ones. */
  lemma InsertedAgain(kept: seq<Field>, again: seq<Field>, key: string, value: Json)
    requires !HasKey(kept, key) && Position(kept, key) < |kept| == |again|
    requires forall i :: 0 <= i < |again| ==> again[i].key == Insert(kept, key, value)[i].key
    ensures |Insert(again, key, value)| == |again|
  {
    var p := Position(kept, key);
    InsertAbsent(kept, key, value);
    assert forall i :: 0 <= i < p ==> again[i].key == kept[i].key;
    InsertPresent(again, key, value, p);
  }

  lemma NoNewBinaryMarker(reader: Reader, fields: seq<Field>, depth: nat)
    requires depth <= DEEPEST_CONTAINER && !HasBinaryMarker(fields)
    ensures !HasBinaryMarker(RedactFields(reader, fields, depth))
  {
    BinaryKeyIsNotSensitive();
    KeptFieldsAre(reader, fields, depth);
    var kept := KeptFields(reader, fields, depth);
    forall f | f in kept && f.key == BINARY_KEY
      ensures f.value.Null?
    {
      var i :| 0 <= i < |kept| && kept[i] == f;
      assert fields[i].value.Null?;
    }
    InsertBringsOne(kept, MORE_KEY, String(MORE_FIELDS));
    MoreKeyIsNotBinaryKey();
    assert forall f :: f in RedactFields(reader, fields, depth) && f.key == BINARY_KEY ==> f.value.Null?;
  }

  lemma MoreKeyIsNotBinaryKey()
    ensures MORE_KEY != BINARY_KEY
  {
    assert |MORE_KEY| != |BINARY_KEY|;
  }

  // --- The fallback -----------------------------------------------------------------------------

  lemma SummaryIsNoMediaKey()
    ensures !MediaKey("summary") && !ArgumentsKey("summary")
  {
    LowerCaseLetters("summary");
    forall i | 0 <= i < |MEDIA_MARKERS|
      ensures !Contains("summary", MEDIA_MARKERS[i])
    {
      if Contains("summary", MEDIA_MARKERS[i]) {
        ContainsOnlyItsLetters("summary", MEDIA_MARKERS[i], MEDIA_MARKERS[i][[0, 3, 1, 0, 0][i]]);
      }
    }
    assert |Lower("summary")| == 7;
  }

  /** A short word of small letters is kept. */
  lemma WordStays(text: string, hint: Option<string>)
    requires 0 < |text| < 128 && forall i :: 0 <= i < |text| ==> 'a' <= text[i] <= 'z'
    requires hint.Some? ==> !MediaKey(hint.value)
    ensures RedactText(text, hint) == text
  {
    if SensitiveText(text) { SensitiveHasSeparator(text); }
    var start := Lower(TrimStart(text));
    assert LeadingBlanks(text) == 0;
    assert |text| > 4 ==> start[..5][4] == start[4] == text[4];
  }

  lemma ShapeStays(reader: Reader, v: Json, depth: nat)
    ensures RedactValue(reader, String(Shape(v)), depth, Some("summary")) == String(Shape(v))
  {
    SummaryIsNoMediaKey();
    ShapeIsAWord(v);
    PlainTextStays(reader, Shape(v), depth, "summary");
  }

  lemma ShapeIsAWord(v: Json)
    ensures 0 < |Shape(v)| < 128 && forall i :: 0 <= i < |Shape(v)| ==> 'a' <= Shape(v)[i] <= 'z'
  {
  }

  lemma PlainTextStays(reader: Reader, text: string, depth: nat, key: string)
    requires !MediaKey(key) && !ArgumentsKey(key)
    requires 0 < |text| < 128 && forall i :: 0 <= i < |text| ==> 'a' <= text[i] <= 'z'
    ensures RedactValue(reader, String(text), depth, Some(key)) == String(text)
  {
    WordStays(text, Some(key));
  }

  lemma FallbackStays(reader: Reader, v: Json)
    ensures RedactValue(reader, Fallback(v), 0, None) == Fallback(v)
  {
    FallbackIsPlain(v);
    FallbackEntries(reader, v);
    var stays := f => Entry(reader, f, 0) == f;
    Both(Fallback(v).fields, stays);
    assert forall i :: 0 <= i < |Fallback(v).fields| ==> stays(Fallback(v).fields[i]);
    ObjectStays(reader, Fallback(v).fields);
  }

  lemma Both<T>(s: seq<T>, p: T -> bool)
    requires |s| == 2 && p(s[0]) && p(s[1])
    ensures forall i :: 0 <= i < |s| ==> p(s[i])
  {
  }

  lemma FallbackIsPlain(v: Json)
    ensures Fallback(v).Object? && |Fallback(v).fields| == 2 && !HasBinaryMarker(Fallback(v).fields)
  {
    assert |"summary"| == 7 && |"truncated"| == 9 && |BINARY_KEY| == 11;
  }

  /** A small object of entries that stay is kept. */
  lemma ObjectStays(reader: Reader, fields: seq<Field>)
    requires |fields| <= MAX_ITEMS && !HasBinaryMarker(fields)
    requires forall i :: 0 <= i < |fields| ==> Entry(reader, fields[i], 0) == fields[i]
    ensures RedactValue(reader, Object(fields), 0, None) == Object(fields)
  {
    KeptFieldsAre(reader, fields, 0);
    SameEntries(KeptFields(reader, fields, 0), fields);
  }

  lemma FallbackEntries(reader: Reader, v: Json)
    ensures Entry(reader, Fallback(v).fields[0], 0) == Fallback(v).fields[0]
    ensures Entry(reader, Fallback(v).fields[1], 0) == Fallback(v).fields[1]
  {
    HarmlessKey("summary");
    HarmlessKey("truncated");
    ShapeStays(reader, v, 1);
  }

  lemma FallbackSize(v: Json)
    ensures EncodedSize(Fallback(v)) <= MAX_SUMMARY_BYTES
  {
    EncodedTextBound(Shape(v));
    EncodedTextBound("summary");
    EncodedTextBound("truncated");
    EncodedPair(Field("summary", String(Shape(v))), Field("truncated", Bool(true)));
  }

  /** A summary is its own canonical form exactly when it fell back to its shape or its input is
      stable. */
  lemma CanonicalIsFixpoint(reader: Reader, v: Json)
    requires ReadsJson(reader) && WellFormed(v)
    ensures CanonicalSummary(reader, CanonicalSummary(reader, v).value).value == CanonicalSummary(reader, v).value
        <==> EncodedSize(RedactValue(reader, v, 0, None)) > MAX_SUMMARY_BYTES || Stable(reader, v, 0, None)
  {
    RedactTwice(reader, v, 0, None);
    FallbackStays(reader, v);
    FallbackSize(v);
  }
}
