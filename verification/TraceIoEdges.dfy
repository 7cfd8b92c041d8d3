/** Concrete inputs whose canonical summary the receiver refuses, whatever the JSON reader. */
module TraceIoEdges {
  import opened Outcomes
  import opened Text
  import opened JsonValues
  import opened TraceIo
  import opened ClippedText
  import opened TraceIoFixpoint
  import opened TraceIoGuarantees

  /** 129 members, whose keys all sort after the marker of lost fields. */
  function LateKeys(): Json {
    Object(seq(129, i requires 0 <= i < 129 => Field(MORE_KEY + [('a' as int + i) as char], Null)))
  }

  lemma LateKeysAreWellFormed()
    ensures WellFormed(LateKeys())
    ensures !MarkerFits(LateKeys().fields)
  {
    var fields := LateKeys().fields;
    forall i, j | 0 <= i < j < |fields|
      ensures Less(fields[i].key, fields[j].key)
    {
      assert fields[i].key[1..] == [fields[i].key[1]] && fields[j].key[1..] == [fields[j].key[1]];
    }
    assert fields[0].key[1..] == "a" && MORE_KEY[1..] == [];
    assert !Less(fields[0].key, MORE_KEY);
  }

  lemma ShortFieldsAreSmall(reader: Reader, fields: seq<Field>)
    requires forall i :: 0 <= i < |fields| ==> |fields[i].key| == 2 && fields[i].value == Null
    ensures EncodedFields(RedactFields(reader, fields, 0)) <= 502 * (MAX_ITEMS + 1)
  {
    var kept, out := KeptFields(reader, fields, 0), RedactFields(reader, fields, 0);
    forall f | f in kept
      ensures SmallField(f)
    {
      KeptFieldsAre(reader, fields, 0);
      var i :| 0 <= i < |kept| && kept[i] == f;
      LateEntryIsSmall(reader, fields[i]);
    }
    MoreFieldIsSmall();
    InsertBringsOne(kept, MORE_KEY, String(MORE_FIELDS));
    InsertLength(kept, MORE_KEY, String(MORE_FIELDS));
    forall i | 0 <= i < |out|
      ensures SmallField(out[i])
    {
      assert out[i] in out;
    }
    EncodedFieldsBound(out);
  }

  predicate SmallField(field: Field) {
    EncodedText(field.key) + EncodedSize(field.value) <= 500
  }

  lemma LateEntryIsSmall(reader: Reader, field: Field)
    requires |field.key| == 2 && field.value == Null
    ensures SmallField(Entry(reader, field, 0))
  {
    var value := Entry(reader, field, 0).value;
    ShortTextIsSmall(field.key);
    assert value.String? ==> value.text == REDACTED;
    if value.String? { ShortTextIsSmall(value.text); }
  }

  lemma ShortTextIsSmall(text: string)
    requires |text| <= 30
    ensures EncodedText(text) <= 200
  {
    EncodedTextBound(text);
  }

  lemma MoreFieldIsSmall()
    ensures SmallField(Field(MORE_KEY, String(MORE_FIELDS)))
  {
    EncodedTextBound(MORE_KEY);
    EncodedTextBound(MORE_FIELDS);
  }

  lemma LateKeysBranch(reader: Reader)
    ensures RedactValue(reader, LateKeys(), 0, None) == Object(RedactFields(reader, LateKeys().fields, 0))
    ensures !Stable(reader, LateKeys(), 0, None)
  {
    LateKeysAreWellFormed();
    forall i | 0 <= i < |LateKeys().fields|
      ensures LateKeys().fields[i].value.Null?
    {
    }
    assert !HasBinaryMarker(LateKeys().fields);
  }

  /** An unstable input that keeps its summary has it refused. */
  lemma UnstableIsRefused(reader: Reader, v: Json)
    requires ReadsJson(reader) && WellFormed(v)
    requires EncodedSize(RedactValue(reader, v, 0, None)) <= MAX_SUMMARY_BYTES
    requires !Stable(reader, v, 0, None)
    ensures ValidateSummary(reader, CanonicalSummary(reader, v)) == Err(NotCanonical)
  {
    CanonicalIsFixpoint(reader, v);
  }

  /** An object that lost fields, but whose kept keys sort after the marker, is refused. */
  lemma MisplacedMarkerIsRefused(reader: Reader)
    requires ReadsJson(reader)
    ensures ValidateSummary(reader, CanonicalSummary(reader, LateKeys())) == Err(NotCanonical)
  {
    LateKeysAreWellFormed();
    ShortFieldsAreSmall(reader, LateKeys().fields);
    LateKeysBranch(reader);
    UnstableIsRefused(reader, LateKeys());
  }

  /** A scheme with nothing but blanks after it, and too long. */
  function BlankCredential(): string {
    "bearer" + seq(MAX_STRING_CHARS, _ => ' ')
  }

  lemma BlankCredentialIsExposed()
    ensures TrimmedLength(BlankCredential()) == 6
    ensures ExposesScheme(BlankCredential())
  {
    var text := BlankCredential();
    assert text[5] == 'r';
    ClipShape(text);
    NineteenDigits(|text|);
    assert Lower(text[..6])[0..] == "bearer";
  }

  lemma BlankCredentialIsClipped()
    ensures IsClipped(BlankCredential(), None)
  {
    var text := BlankCredential();
    BlankCredentialIsExposed();
    assert text[..6] == "bearer";
    assert Trim(text) == "bearer";
    if SensitiveText(text) { SensitiveHasSeparator(text); }
    assert LeadingBlanks(text) == 0;
    assert Lower(TrimStart(text))[..5][0] == 'b';
    assert text[0] == 'b';
  }

  lemma BlankCredentialIsSmall(reader: Reader)
    ensures EncodedSize(RedactValue(reader, String(BlankCredential()), 0, None)) <= MAX_SUMMARY_BYTES
  {
    var text := BlankCredential();
    BlankCredentialIsClipped();
    PlainClipIsSmall(text);
    assert RedactText(text, None) == Clip(text);
  }

  lemma PlainClipIsSmall(text: string)
    requires MAX_STRING_CHARS < |text| <= MAX_TEXT_LENGTH
    requires forall i :: 0 <= i < |text| ==> EncodedChar(text[i]) == 1
    ensures EncodedText(Clip(text)) <= MAX_SUMMARY_BYTES
  {
    NineteenDigits(|text|);
    EncodedPlainPrefix(text[..ClipPrefix(|text|)], ClipSuffix(|text|));
    EncodedTextBound(ClipSuffix(|text|));
  }

  /** Clipping cuts off the blanks that hid the credential scheme, and the clipped text is refused. */
  lemma ExposedSchemeIsRefused(reader: Reader)
    requires ReadsJson(reader)
    ensures ValidateSummary(reader, CanonicalSummary(reader, String(BlankCredential()))) == Err(NotCanonical)
  {
    BlankCredentialIsExposed();
    BlankCredentialIsClipped();
    BlankCredentialIsSmall(reader);
    UnstableIsRefused(reader, String(BlankCredential()));
  }

  function PretendedCut(): Json {
    Object([Field("truncated", Bool(true))])
  }

  lemma PretendedCutStays(reader: Reader)
    ensures RedactValue(reader, PretendedCut(), 0, None) == PretendedCut()
    ensures !Truncates(reader, PretendedCut(), 0, None)
  {
    HarmlessKey("truncated");
    assert |"truncated"| == 9 && |BINARY_KEY| == 11;
    ObjectStays(reader, PretendedCut().fields);
  }

  lemma PretendedCutIsSmall()
    ensures EncodedSize(PretendedCut()) <= MAX_SUMMARY_BYTES
  {
    OneFieldSize(Field("truncated", Bool(true)));
    ShortTextIsSmall("truncated");
  }

  lemma OneFieldSize(field: Field)
    ensures EncodedSize(Object([field])) == 3 + EncodedText(field.key) + EncodedSize(field.value)
  {
    assert [field][1..] == [];
    assert EncodedFields([field]) == EncodedText(field.key) + 1 + EncodedSize(field.value);
  }

  /** A caller's own `truncated: true` member makes an uncut summary look cut. */
  lemma PretendedCutIsRefused(reader: Reader)
    ensures ValidateSummary(reader, CanonicalSummary(reader, PretendedCut())) == Err(UnderReportsTruncation)
  {
    PretendedCutStays(reader);
    PretendedCutIsSmall();
    assert PretendedCut().fields[0] == Field("truncated", Bool(true));
    assert RequiresTruncation(PretendedCut());
  }
}
