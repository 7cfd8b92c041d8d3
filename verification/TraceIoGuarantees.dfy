/** What a receiver may rely on: the validator's verdict on canonical summaries, the size of what is
    kept, and that nothing under a sensitive key reaches the summary. */
module TraceIoGuarantees {
  import opened Outcomes
  import opened Text
  import opened JsonValues
  import opened TraceIo
  import opened ClippedText
  import opened TraceIoFixpoint

  // --- The truncation flag ----------------------------------------------------------------------

  /** The input itself holds something that the checker takes for a cut: a `truncated: true` member,
      or the wording of a clipped text. */
  ghost predicate Lookalike(reader: Reader, v: Json, depth: nat, hint: Option<string>)
    decreases Remaining(depth), if v.String? then 3 else 2
  {
    if Omitted(v, depth, hint) then false
    else
      match v
      case Object(fields) =>
        || Field("truncated", Bool(true)) in fields
        || exists i :: 0 <= i < |fields| && LookalikeField(reader, fields[i], depth)
      case Array(items) =>
        exists i :: 0 <= i < |items| && Lookalike(reader, items[i], depth + 1, hint)
      case String(text) =>
        var decoded := Decoded(reader, text, hint);
        if decoded.Some? then Lookalike(reader, decoded.value, depth, hint) else Contains(text, " chars total>")
      case _ => false
  }

  ghost predicate LookalikeField(reader: Reader, field: Field, depth: nat)
    requires depth <= DEEPEST_CONTAINER
    decreases Remaining(depth), 0
  {
    !SensitiveKey(field.key) && Lookalike(reader, field.value, depth + 1, Some(field.key))
  }

  lemma {:induction false} FlagShows(reader: Reader, v: Json, depth: nat, hint: Option<string>)
    requires WellFormed(v) && ReadsJson(reader)
    ensures RequiresTruncation(RedactValue(reader, v, depth, hint))
        <==> Truncates(reader, v, depth, hint) || Lookalike(reader, v, depth, hint)
    decreases Remaining(depth), if v.String? then 3 else 2
  {
    if Omitted(v, depth, hint) {
      OmittedMark(v);
    } else {
      match v {
        case Object(fields) =>
          if !HasBinaryMarker(fields) { FieldsFlagShows(reader, fields, depth); }
        case Array(items) =>
          forall i | 0 <= i < |items|
            ensures RequiresTruncation(RedactValue(reader, items[i], depth + 1, hint))
                <==> Truncates(reader, items[i], depth + 1, hint) || Lookalike(reader, items[i], depth + 1, hint)
          {
            FlagShows(reader, items[i], depth + 1, hint);
          }
          ItemsFlagShows(reader, items, depth, hint);
        case String(text) =>
          var decoded := Decoded(reader, text, hint);
          if decoded.Some? {
            FlagShows(reader, decoded.value, depth, hint);
          } else {
            TextFlagShows(text, hint);
            UndecodedStep(reader, text, depth, hint);
          }
        case _ =>
      }
    }
  }

  lemma ItemsFlagShows(reader: Reader, items: seq<Json>, depth: nat, hint: Option<string>)
    requires !Omitted(Array(items), depth, hint)
    requires forall i :: 0 <= i < |items| ==>
      (RequiresTruncation(RedactValue(reader, items[i], depth + 1, hint))
       <==> Truncates(reader, items[i], depth + 1, hint) || Lookalike(reader, items[i], depth + 1, hint))
    ensures RequiresTruncation(RedactValue(reader, Array(items), depth, hint))
        <==> Truncates(reader, Array(items), depth, hint) || Lookalike(reader, Array(items), depth, hint)
  {
    var out := RedactItems(reader, items, depth, hint);
    if |items| < MAX_ITEMS {
      assert forall i :: 0 <= i < |items| ==> out[i] == RedactValue(reader, items[i], depth + 1, hint);
    }
  }

  lemma TextFlagShows(text: string, hint: Option<string>)
    requires |text| <= MAX_TEXT_LENGTH
    ensures RequiresTruncation(String(RedactText(text, hint)))
        <==> TextTruncates(text, hint) || Contains(text, " chars total>")
  {
    MediaMarkIsPlaceholder(|text|);
    if IsClipped(text, hint) { ClipShape(text); }
  }

  lemma {:induction false} FieldsFlagShows(reader: Reader, fields: seq<Field>, depth: nat)
    requires WellFormed(Object(fields)) && ReadsJson(reader) && depth <= DEEPEST_CONTAINER
    ensures RequiresTruncation(Object(RedactFields(reader, fields, depth)))
        <==> || |fields| >= MAX_ITEMS
             || AnyFieldTruncates(reader, fields, depth)
             || Field("truncated", Bool(true)) in fields
             || exists i :: 0 <= i < |fields| && LookalikeField(reader, fields[i], depth)
    decreases Remaining(depth), 1
  {
    var out := RedactFields(reader, fields, depth);
    KeptFieldsAre(reader, fields, depth);
    if |fields| < MAX_ITEMS {
      forall i | 0 <= i < |fields|
        ensures RequiresTruncation(out[i].value)
            <==> FieldTruncates(reader, fields[i], depth) || LookalikeField(reader, fields[i], depth)
        ensures out[i] == Field("truncated", Bool(true)) <==> fields[i] == Field("truncated", Bool(true))
      {
        EntryFlagShows(reader, fields[i], depth);
      }
      ManyFlagsShow(reader, fields, out, depth);
    } else {
      InsertLength(KeptFields(reader, fields, depth), MORE_KEY, String(MORE_FIELDS));
    }
  }

  lemma ManyFlagsShow(reader: Reader, fields: seq<Field>, out: seq<Field>, depth: nat)
    requires |fields| == |out| < MAX_ITEMS && depth <= DEEPEST_CONTAINER
    requires forall i :: 0 <= i < |fields| ==>
      (RequiresTruncation(out[i].value)
       <==> FieldTruncates(reader, fields[i], depth) || LookalikeField(reader, fields[i], depth))
    requires forall i :: 0 <= i < |fields| ==>
      (out[i] == Field("truncated", Bool(true)) <==> fields[i] == Field("truncated", Bool(true)))
    ensures RequiresTruncation(Object(out))
        <==> || AnyFieldTruncates(reader, fields, depth)
             || Field("truncated", Bool(true)) in fields
             || exists i :: 0 <= i < |fields| && LookalikeField(reader, fields[i], depth)
  {
    assert AnyFieldTruncates(reader, fields, depth)
        <==> exists i :: 0 <= i < |fields| && FieldTruncates(reader, fields[i], depth);
  }

  lemma InsertLength(fields: seq<Field>, key: string, value: Json)
    ensures |fields| <= |Insert(fields, key, value)| <= |fields| + 1
  {
  }

  lemma {:induction false} EntryFlagShows(reader: Reader, field: Field, depth: nat)
    requires WellFormed(field.value) && ReadsJson(reader) && depth <= DEEPEST_CONTAINER
    ensures RequiresTruncation(Entry(reader, field, depth).value)
        <==> FieldTruncates(reader, field, depth) || LookalikeField(reader, field, depth)
    ensures Entry(reader, field, depth) == Field("truncated", Bool(true)) <==> field == Field("truncated", Bool(true))
    decreases Remaining(depth), 0
  {
    if !SensitiveKey(field.key) {
      FlagShows(reader, field.value, depth + 1, Some(field.key));
      OnlyTrueBecomesTrue(reader, field.value, depth + 1, Some(field.key));
    } else {
      TruncatedIsNotSensitive();
      assert Placeholder(REDACTED);
    }
  }

  lemma TruncatedIsNotSensitive()
    ensures !SensitiveKey("truncated")
  {
    LowerCaseLetters("truncated");
    HarmlessEnding("truncated");
  }

  lemma {:induction false} OnlyTrueBecomesTrue(reader: Reader, v: Json, depth: nat, hint: Option<string>)
    ensures RedactValue(reader, v, depth, hint) == Bool(true) <==> v == Bool(true)
    decreases Remaining(depth), if v.String? then 3 else 2
  {
    if v.String? && Decoded(reader, v.text, hint).Some? {
      OnlyTrueBecomesTrue(reader, Decoded(reader, v.text, hint).value, depth, hint);
    }
  }

  /** The receiver accepts a canonical summary exactly when it is a fallback, or its input is stable
      and does not pretend to be cut when it is not. */
  lemma CanonicalIsAccepted(reader: Reader, v: Json)
    requires ReadsJson(reader) && WellFormed(v)
    ensures ValidateSummary(reader, CanonicalSummary(reader, v)).Ok?
        <==> || EncodedSize(RedactValue(reader, v, 0, None)) > MAX_SUMMARY_BYTES
             || (Stable(reader, v, 0, None) && (Truncates(reader, v, 0, None) || !Lookalike(reader, v, 0, None)))
  {
    CanonicalIsFixpoint(reader, v);
    FlagShows(reader, v, 0, None);
    FallbackStays(reader, v);
    FallbackSize(v);
    assert Fallback(v).fields[1] == Field("truncated", Bool(true));
  }

  /** A summary that reports a cut always shows it. */
  lemma ReportedCutIsVisible(reader: Reader, v: Json)
    requires ReadsJson(reader) && WellFormed(v)
    ensures CanonicalSummary(reader, v).truncated ==> RequiresTruncation(CanonicalSummary(reader, v).value)
  {
    FlagShows(reader, v, 0, None);
    assert Fallback(v).fields[1] == Field("truncated", Bool(true));
  }

  // --- Bounds -----------------------------------------------------------------------------------

  ghost predicate Bounded(v: Json, levels: nat) {
    match v
    case Array(items) =>
      levels > 0 && |items| <= MAX_ITEMS && forall i :: 0 <= i < |items| ==> Bounded(items[i], levels - 1)
    case Object(fields) =>
      levels > 0 && |fields| <= MAX_ITEMS + 1 && forall i :: 0 <= i < |fields| ==> BoundedField(fields[i], levels - 1)
    case String(text) => |text| <= MAX_STRING_CHARS || Placeholder(text)
    case _ => true
  }

  ghost predicate BoundedField(field: Field, levels: nat) {
    Bounded(field.value, levels) && (SensitiveKey(field.key) ==> field.value == String(REDACTED))
  }

  lemma {:induction false} RedactedIsBounded(reader: Reader, v: Json, depth: nat, hint: Option<string>)
    requires WellFormed(v) && ReadsJson(reader)
    ensures Bounded(RedactValue(reader, v, depth, hint), Remaining(depth))
    decreases Remaining(depth), if v.String? then 3 else 2
  {
    if Omitted(v, depth, hint) {
      OmittedMark(v);
    } else {
      match v {
        case Object(fields) =>
          if !HasBinaryMarker(fields) { FieldsAreBounded(reader, fields, depth); }
        case Array(items) =>
          var out := RedactItems(reader, items, depth, hint);
          forall i | 0 <= i < |out|
            ensures Bounded(out[i], Remaining(depth) - 1)
          {
            RedactedIsBounded(reader, items[i], depth + 1, hint);
          }
        case String(text) =>
          var decoded := Decoded(reader, text, hint);
          if decoded.Some? {
            RedactedIsBounded(reader, decoded.value, depth, hint);
          } else {
            MediaMarkIsPlaceholder(|text|);
            if IsClipped(text, hint) { ClipShape(text); }
          }
        case _ =>
      }
    }
  }

  lemma {:induction false} FieldsAreBounded(reader: Reader, fields: seq<Field>, depth: nat)
    requires WellFormed(Object(fields)) && ReadsJson(reader) && depth <= DEEPEST_CONTAINER
    ensures Bounded(Object(RedactFields(reader, fields, depth)), Remaining(depth))
    decreases Remaining(depth), 1
  {
    var kept := KeptFields(reader, fields, depth);
    KeptFieldsAreBounded(reader, fields, depth);
    MarkedFieldsAreBounded(kept, Remaining(depth) - 1);
    FieldsMakeAnObject(RedactFields(reader, fields, depth), Remaining(depth) - 1);
  }

  lemma {:induction false} KeptFieldsAreBounded(reader: Reader, fields: seq<Field>, depth: nat)
    requires WellFormed(Object(fields)) && ReadsJson(reader) && depth <= DEEPEST_CONTAINER
    ensures forall f :: f in KeptFields(reader, fields, depth) ==> BoundedField(f, Remaining(depth) - 1)
    decreases Remaining(depth), 0
  {
    var kept := KeptFields(reader, fields, depth);
    KeptFieldsAre(reader, fields, depth);
    forall f | f in kept
      ensures BoundedField(f, Remaining(depth) - 1)
    {
      var i :| 0 <= i < |kept| && kept[i] == f;
      if !SensitiveKey(f.key) { RedactedIsBounded(reader, fields[i].value, depth + 1, Some(f.key)); }
    }
  }

  lemma MarkedFieldsAreBounded(kept: seq<Field>, levels: nat)
    requires |kept| <= MAX_ITEMS && forall f :: f in kept ==> BoundedField(f, levels)
    ensures var out := Insert(kept, MORE_KEY, String(MORE_FIELDS));
      |out| <= MAX_ITEMS + 1 && forall f :: f in out ==> BoundedField(f, levels)
  {
    MoreKeyIsNotSensitive();
    InsertBringsOne(kept, MORE_KEY, String(MORE_FIELDS));
    InsertLength(kept, MORE_KEY, String(MORE_FIELDS));
  }

  lemma FieldsMakeAnObject(fields: seq<Field>, levels: nat)
    requires |fields| <= MAX_ITEMS + 1 && forall f :: f in fields ==> BoundedField(f, levels)
    ensures Bounded(Object(fields), levels + 1)
  {
    assert forall i :: 0 <= i < |fields| ==> fields[i] in fields;
  }

  /** Whatever the input, a summary fits its byte limit, nests at most eight containers, has bounded
      arrays, objects and texts, and holds the fixed marker under every sensitive key. */
  lemma CanonicalIsBounded(reader: Reader, v: Json)
    requires ReadsJson(reader) && WellFormed(v)
    ensures EncodedSize(CanonicalSummary(reader, v).value) <= MAX_SUMMARY_BYTES
    ensures Bounded(CanonicalSummary(reader, v).value, DEEPEST_CONTAINER + 1)
  {
    RedactedIsBounded(reader, v, 0, None);
    FallbackStays(reader, v);
    FallbackSize(v);
    FallbackIsWellFormed(v);
    RedactedIsBounded(reader, Fallback(v), 0, None);
  }

  /** So whatever a receiver accepts, whoever sent it, is within the same bounds and redacted, and is flagged if it
      shows a cut. */
  lemma AcceptedIsBounded(reader: Reader, s: TraceIoSummary)
    requires ReadsJson(reader) && WellFormed(s.value) && ValidateSummary(reader, s).Ok?
    ensures EncodedSize(s.value) <= 131_072 && Bounded(s.value, 8)
    ensures RequiresTruncation(s.value) ==> s.truncated
  {
    CanonicalIsBounded(reader, s.value);
  }

  lemma FallbackIsWellFormed(v: Json)
    ensures WellFormed(Fallback(v))
  {
    assert Less("summary", "truncated");
  }

  // --- Secrets ----------------------------------------------------------------------------------

  /** What the rewriter sees: a string under an arguments key that decodes to a container is that container. */
  function Read(reader: Reader, v: Json, hint: Option<string>): Json {
    if v.String? && Decoded(reader, v.text, hint).Some? then Decoded(reader, v.text, hint).value else v
  }

  predicate SecretText(text: string) {
    SensitiveText(text) && !Placeholder(text)
  }

  /** The values differ at most in what their sensitive keys hold, in texts that look like credentials and in
      containers below the depth limit. Strings that the rewriter decodes are compared decoded. */
  ghost predicate SameApartFromSecrets(reader: Reader, a: Json, b: Json, depth: nat, hint: Option<string>)
    decreases Remaining(depth), 2
  {
    match (Read(reader, a, hint), Read(reader, b, hint))
    case (Array(xs), Array(ys)) =>
      Omitted(Array(xs), depth, hint) || SameItems(reader, xs, ys, depth, hint)
    case (Object(xs), Object(ys)) =>
      Omitted(Object(xs), depth, hint) || SameFields(reader, xs, ys, depth)
    case (String(x), String(y)) => x == y || (SecretText(x) && SecretText(y))
    case (x, y) => x == y
  }

  ghost predicate SameItems(reader: Reader, xs: seq<Json>, ys: seq<Json>, depth: nat, hint: Option<string>)
    requires depth <= DEEPEST_CONTAINER
    decreases Remaining(depth), 1
  {
    |xs| == |ys| && forall i :: 0 <= i < |xs| ==> SameApartFromSecrets(reader, xs[i], ys[i], depth + 1, hint)
  }

  ghost predicate SameFields(reader: Reader, xs: seq<Field>, ys: seq<Field>, depth: nat)
    requires depth <= DEEPEST_CONTAINER
    decreases Remaining(depth), 1
  {
    && |xs| == |ys|
    && (forall i :: 0 <= i < |xs| ==> xs[i].key == ys[i].key)
    && (forall i :: 0 <= i < |xs| ==>
          SensitiveKey(xs[i].key)
          || SameApartFromSecrets(reader, xs[i].value, ys[i].value, depth + 1, Some(xs[i].key)))
  }

  lemma SameAsRead(reader: Reader, v: Json, depth: nat, hint: Option<string>)
    ensures RedactValue(reader, v, depth, hint) == RedactValue(reader, Read(reader, v, hint), depth, hint)
    ensures Truncates(reader, v, depth, hint) == Truncates(reader, Read(reader, v, hint), depth, hint)
  {
  }

  lemma {:induction false} SecretsDoNotFlow(reader: Reader, a: Json, b: Json, depth: nat, hint: Option<string>)
    requires SameApartFromSecrets(reader, a, b, depth, hint)
    ensures RedactValue(reader, a, depth, hint) == RedactValue(reader, b, depth, hint)
    ensures Truncates(reader, a, depth, hint) == Truncates(reader, b, depth, hint)
    decreases Remaining(depth), 2
  {
    SameAsRead(reader, a, depth, hint);
    SameAsRead(reader, b, depth, hint);
    match (Read(reader, a, hint), Read(reader, b, hint))
    case (Array(xs), Array(ys)) =>
      if !Omitted(Array(xs), depth, hint) { SecretsInItems(reader, xs, ys, depth, hint); }
    case (Object(xs), Object(ys)) =>
      if !Omitted(Object(xs), depth, hint) { SecretsInFields(reader, xs, ys, depth); }
    case _ =>
  }

  lemma {:induction false} SecretsInItems(reader: Reader, xs: seq<Json>, ys: seq<Json>, depth: nat, hint: Option<string>)
    requires depth <= DEEPEST_CONTAINER && SameItems(reader, xs, ys, depth, hint)
    ensures RedactItems(reader, xs, depth, hint) == RedactItems(reader, ys, depth, hint)
    ensures AnyItemTruncates(reader, xs, depth, hint) == AnyItemTruncates(reader, ys, depth, hint)
    decreases Remaining(depth), 1
  {
    forall i | 0 <= i < |xs|
      ensures RedactValue(reader, xs[i], depth + 1, hint) == RedactValue(reader, ys[i], depth + 1, hint)
      ensures Truncates(reader, xs[i], depth + 1, hint) == Truncates(reader, ys[i], depth + 1, hint)
    {
      SecretsDoNotFlow(reader, xs[i], ys[i], depth + 1, hint);
    }
  }

  lemma {:induction false} SecretsInFields(reader: Reader, xs: seq<Field>, ys: seq<Field>, depth: nat)
    requires depth <= DEEPEST_CONTAINER && SameFields(reader, xs, ys, depth)
    ensures RedactFields(reader, xs, depth) == RedactFields(reader, ys, depth)
    ensures AnyFieldTruncates(reader, xs, depth) == AnyFieldTruncates(reader, ys, depth)
    ensures HasBinaryMarker(xs) == HasBinaryMarker(ys)
    decreases Remaining(depth), 1
  {
    forall i | 0 <= i < |xs|
      ensures Entry(reader, xs[i], depth) == Entry(reader, ys[i], depth)
      ensures FieldTruncates(reader, xs[i], depth) == FieldTruncates(reader, ys[i], depth)
    {
      if !SensitiveKey(xs[i].key) {
        SecretsDoNotFlow(reader, xs[i].value, ys[i].value, depth + 1, Some(xs[i].key));
      }
    }
    SameEntriesSameObject(reader, xs, ys, depth);
    SameBinaryMarker(reader, xs, ys, depth);
  }

  lemma SameEntriesSameObject(reader: Reader, xs: seq<Field>, ys: seq<Field>, depth: nat)
    requires |xs| == |ys| && depth <= DEEPEST_CONTAINER
    requires forall i :: 0 <= i < |xs| ==> Entry(reader, xs[i], depth) == Entry(reader, ys[i], depth)
    requires forall i :: 0 <= i < |xs| ==> FieldTruncates(reader, xs[i], depth) == FieldTruncates(reader, ys[i], depth)
    ensures RedactFields(reader, xs, depth) == RedactFields(reader, ys, depth)
    ensures AnyFieldTruncates(reader, xs, depth) == AnyFieldTruncates(reader, ys, depth)
  {
    KeptFieldsAre(reader, xs, depth);
    KeptFieldsAre(reader, ys, depth);
    assert KeptFields(reader, xs, depth) == KeptFields(reader, ys, depth);
  }

  lemma SameBinaryMarker(reader: Reader, xs: seq<Field>, ys: seq<Field>, depth: nat)
    requires depth <= DEEPEST_CONTAINER && SameFields(reader, xs, ys, depth)
    ensures HasBinaryMarker(xs) == HasBinaryMarker(ys)
  {
    BinaryKeyIsNotSensitive();
    forall i | 0 <= i < |xs| && xs[i].key == BINARY_KEY
      ensures ys[i].key == BINARY_KEY && xs[i].value.Null? == ys[i].value.Null?
    {
      assert SameApartFromSecrets(reader, xs[i].value, ys[i].value, depth + 1, Some(xs[i].key));
    }
  }

  /** Two inputs that differ only in secrets have one and the same summary. */
  lemma SummaryKeepsNoSecret(reader: Reader, a: Json, b: Json)
    requires SameApartFromSecrets(reader, a, b, 0, None)
    ensures CanonicalSummary(reader, a) == CanonicalSummary(reader, b)
  {
    SecretsDoNotFlow(reader, a, b, 0, None);
  }

  lemma {:induction false} SameAsItself(reader: Reader, v: Json, depth: nat, hint: Option<string>)
    ensures SameApartFromSecrets(reader, v, v, depth, hint)
    decreases Remaining(depth)
  {
    match Read(reader, v, hint)
    case Array(xs) =>
      if !Omitted(Array(xs), depth, hint) {
        forall i | 0 <= i < |xs|
          ensures SameApartFromSecrets(reader, xs[i], xs[i], depth + 1, hint)
        {
          SameAsItself(reader, xs[i], depth + 1, hint);
        }
      }
    case Object(xs) =>
      if !Omitted(Object(xs), depth, hint) {
        forall i | 0 <= i < |xs|
          ensures SameApartFromSecrets(reader, xs[i].value, xs[i].value, depth + 1, Some(xs[i].key))
        {
          SameAsItself(reader, xs[i].value, depth + 1, Some(xs[i].key));
        }
      }
    case _ =>
  }

  /** What a sensitive key holds inside the JSON text of a call's arguments cannot be seen in the summary. */
  lemma ArgumentSecretsAreNotSeen(reader: Reader, x: string, y: string, i: nat, secret: Json)
    requires Decoded(reader, x, Some("arguments")).Some? && Decoded(reader, y, Some("arguments")).Some?
    requires reader(x).value.Object? && i < |reader(x).value.fields|
    requires SensitiveKey(reader(x).value.fields[i].key)
    requires reader(y).value == Object(reader(x).value.fields[i := Field(reader(x).value.fields[i].key, secret)])
    ensures CanonicalSummary(reader, Object([Field("arguments", String(x))]))
         == CanonicalSummary(reader, Object([Field("arguments", String(y))]))
  {
    var xs, ys := reader(x).value.fields, reader(y).value.fields;
    forall k | 0 <= k < |xs|
      ensures xs[k].key == ys[k].key
      ensures SensitiveKey(xs[k].key)
        || SameApartFromSecrets(reader, xs[k].value, ys[k].value, 2, Some(xs[k].key))
    {
      if k != i { SameAsItself(reader, xs[k].value, 2, Some(xs[k].key)); }
    }
    assert SameFields(reader, xs, ys, 1);
    var a, b := Object([Field("arguments", String(x))]), Object([Field("arguments", String(y))]);
    assert SameApartFromSecrets(reader, String(x), String(y), 1, Some("arguments"));
    assert SameFields(reader, a.fields, b.fields, 0);
    SummaryKeepsNoSecret(reader, a, b);
  }
}
