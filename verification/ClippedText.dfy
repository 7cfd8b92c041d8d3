/** What happens to a string that was rewritten once: every replacement is kept as it is, except a
    clipped text in which cutting off the end exposes a credential marker. */
module ClippedText {
  import opened Outcomes
  import opened Text
  import opened JsonValues
  import opened TraceIo

  /** The text reaches the last branch of the rewriter and is too long for it. */
  predicate IsClipped(text: string, hint: Option<string>) {
    !Placeholder(text) && !SensitiveText(text) && !Media(text, hint) && |text| > MAX_STRING_CHARS
  }

  /** Apart from trailing blanks the text ends in an authorization scheme, a space follows it, and
      both lie within the part that clipping keeps. Trimming hides the space of the whole text from
      the marker check, and clipping does not. */
  predicate ExposesScheme(text: string) {
    var end := TrimmedLength(text);
    && end < ClipPrefix(|text|) && end < |text|
    && text[end] == ' '
    && (EndsWith(Lower(text[..end]), "bearer") || EndsWith(Lower(text[..end]), "basic"))
  }

  // --- The marker list --------------------------------------------------------------------------

  predicate IsMarker(m: string) {
    exists i :: 0 <= i < |SENSITIVE_MARKERS| && SENSITIVE_MARKERS[i] == m
  }

  /** Every letter of the clip suffix. */
  predicate SuffixLetter(c: char) {
    IsDigit(c) || c in "\U{2026} <charstol>"
  }

  /** A marker is printable, and only the authorization schemes have a blank, at their end. */
  lemma MarkerShape(m: string)
    requires IsMarker(m)
    ensures 6 <= |m| <= 14
    ensures forall k :: 0 <= k < |m| - 1 ==> ' ' < m[k] <= '~'
    ensures m == "bearer " || m == "basic " || ' ' < m[|m| - 1] <= '~'
  {
  }

  /** A marker ends in a separator or has it next to its end, and has a letter that no clip suffix has. */
  lemma MarkerLetters(m: string) returns (separator: nat, letter: nat)
    requires IsMarker(m)
    ensures separator < |m| && m[separator] in ":= "
    ensures letter < |m| && !SuffixLetter(m[letter])
  {
    MarkerHasSeparator(m);
    separator := |m| - 1;
    letter := MarkerHasLetter(m);
    RareLetterIsNoSuffixLetter(m[letter]);
  }

  lemma MarkerHasSeparator(m: string)
    requires IsMarker(m)
    ensures m != [] && (m[|m| - 1] == ':' || m[|m| - 1] == '=' || m[|m| - 1] == ' ')
  {
  }

  lemma MarkerHasLetter(m: string) returns (k: nat)
    requires IsMarker(m)
    ensures k < |m| && RareLetter(m[k])
  {
    var i :| 0 <= i < |SENSITIVE_MARKERS| && SENSITIVE_MARKERS[i] == m;
    k := [1, 1, 0, 0, 1, 1, 1, 3, 1, 3, 0, 0, 1, 1, 2, 3, 1][i];
  }

  predicate RareLetter(c: char) {
    c == 'b' || c == 'e' || c == 'k' || c == 'p' || c == 'u'
  }

  lemma RareLetterIsNoSuffixLetter(c: char)
    requires RareLetter(c)
    ensures !SuffixLetter(c)
  {
  }

  // --- Sensitive text, by position --------------------------------------------------------------

  /** A marker occurs at `j` inside what trimming leaves. */
  predicate MarkerInside(s: string, m: string, j: int) {
    LeadingBlanks(s[..TrimmedLength(s)]) <= j && j + |m| <= TrimmedLength(s) && MatchesAt(s, m, j)
  }

  lemma MarkerInsideIsSensitive(s: string, m: string, j: int)
    requires IsMarker(m) && MarkerInside(s, m, j)
    ensures SensitiveText(s)
  {
    InsideIsContained(s, m, j);
  }

  lemma InsideIsContained(s: string, m: string, j: int)
    requires MarkerInside(s, m, j)
    ensures Contains(Lower(Trim(s)), m)
  {
    var normalized, from := Lower(Trim(s)), LeadingBlanks(s[..TrimmedLength(s)]);
    assert normalized[j - from..j - from + |m|] == m;
    assert OccursAt(normalized, m, j - from);
  }

  lemma SensitiveHasMarkerInside(s: string) returns (m: string, j: int)
    requires SensitiveText(s)
    ensures IsMarker(m) && MarkerInside(s, m, j)
  {
    var i :| 0 <= i < |SENSITIVE_MARKERS| && Contains(Lower(Trim(s)), SENSITIVE_MARKERS[i]);
    m := SENSITIVE_MARKERS[i];
    j := ContainedIsInside(s, m);
  }

  lemma ContainedIsInside(s: string, m: string) returns (j: int)
    requires Contains(Lower(Trim(s)), m)
    ensures MarkerInside(s, m, j)
  {
    var from := LeadingBlanks(s[..TrimmedLength(s)]);
    var at: nat :| at <= |Lower(Trim(s))| && OccursAt(Lower(Trim(s)), m, at);
    j := at + from;
    assert Trim(s) == s[from..TrimmedLength(s)];
    OccursMatches(s, from, TrimmedLength(s), m, at);
  }

  lemma OccursMatches(s: string, from: nat, to: nat, part: string, at: nat)
    requires from <= to <= |s| && OccursAt(Lower(s[from..to]), part, at)
    ensures MatchesAt(s, part, from + at)
  {
    var lower := Lower(s[from..to]);
    forall k | 0 <= k < |part|
      ensures LowerChar(s[from + at + k]) == part[k]
    {
      assert lower[at..at + |part|][k] == lower[at + k] == LowerChar(s[from..to][at + k]);
    }
  }

  lemma MatchesKept(a: string, b: string, n: nat, part: string, j: int)
    requires n <= |a| && n <= |b| && forall i :: 0 <= i < n ==> a[i] == b[i]
    requires MatchesAt(a, part, j) && j + |part| <= n
    ensures MatchesAt(b, part, j)
  {
    forall k | 0 <= k < |part|
      ensures LowerChar(b[j + k]) == part[k]
    {
      assert LowerChar(a[j + k]) == part[k];
    }
  }

  /** Every sensitive text has one of the separators that markers are made with. */
  lemma SensitiveHasSeparator(text: string)
    requires SensitiveText(text)
    ensures exists i :: 0 <= i < TrimmedLength(text) && text[i] in ":= "
  {
    var m, j := SensitiveHasMarkerInside(text);
    var separator, _ := MarkerLetters(m);
    assert LowerChar(text[j + separator]) == m[separator];
  }

  // --- The clipped text -------------------------------------------------------------------------

  lemma ClipShape(text: string)
    requires MAX_STRING_CHARS < |text| <= MAX_TEXT_LENGTH
    ensures |Clip(text)| == MAX_STRING_CHARS
    ensures 0 < ClipPrefix(|text|) < MAX_STRING_CHARS
    ensures forall i :: 0 <= i < ClipPrefix(|text|) ==> Clip(text)[i] == text[i]
    ensures Clip(text)[ClipPrefix(|text|)] == MORE_KEY[0]
    ensures forall i :: ClipPrefix(|text|) <= i < |Clip(text)| ==> SuffixLetter(Clip(text)[i])
    ensures Clip(text)[|Clip(text)| - 1] == '>' && Clip(text)[|Clip(text)| - 2] == 'l'
    ensures Clip(text)[..TrimmedLength(Clip(text))] == Clip(text)
  {
    NineteenDigits(|text|);
  }

  lemma NineteenDigits(n: nat)
    requires n <= MAX_TEXT_LENGTH
    ensures |Decimal(n)| <= 19
  {
    assert PowerOfTen(9) == 1_000_000_000;
    assert PowerOfTen(18) == 1_000_000_000 * PowerOfTen(9);
    DecimalLength(n, 19);
  }

  lemma ClipSensitive(text: string)
    requires MAX_STRING_CHARS < |text| <= MAX_TEXT_LENGTH
    requires !SensitiveText(text)
    ensures SensitiveText(Clip(text)) <==> ExposesScheme(text)
  {
    if ExposesScheme(text) { ExposedIsSensitive(text); }
    if SensitiveText(Clip(text)) {
      var m, j := SensitiveHasMarkerInside(Clip(text));
      MarkerOfClipIsKept(text, m, j);
      KeptMarkerIsExposed(text, m, j);
    }
  }

  lemma ExposedIsSensitive(text: string)
    requires MAX_STRING_CHARS < |text| <= MAX_TEXT_LENGTH
    requires ExposesScheme(text)
    ensures SensitiveText(Clip(text))
  {
    ClipShape(text);
    var clip, end := Clip(text), TrimmedLength(text);
    var scheme := if EndsWith(Lower(text[..end]), "bearer") then "bearer" else "basic";
    SchemeIsMarker(scheme);
    SchemeIsInside(text, clip, end, scheme);
    MarkerInsideIsSensitive(clip, scheme + " ", end - |scheme|);
  }

  lemma SchemeIsMarker(scheme: string)
    requires scheme == "bearer" || scheme == "basic"
    ensures IsMarker(scheme + " ") && scheme != [] && scheme[0] == 'b'
  {
    assert SENSITIVE_MARKERS[if scheme == "bearer" then 2 else 3] == scheme + " ";
  }

  /** A scheme that ends where the blanks begin is inside a text that keeps it and one blank. */
  lemma SchemeIsInside(text: string, clip: string, end: nat, scheme: string)
    requires end < |text| && end < |clip| && forall i :: 0 <= i <= end ==> clip[i] == text[i]
    requires text[end] == ' ' && EndsWith(Lower(text[..end]), scheme)
    requires scheme != [] && scheme[0] == 'b' && TrimmedLength(clip) == |clip|
    ensures MarkerInside(clip, scheme + " ", end - |scheme|)
  {
    var j := end - |scheme|;
    SchemeMatches(text, clip, end, scheme);
    assert LowerChar(clip[j + 0]) == (scheme + " ")[0] == 'b';
    assert clip[..|clip|] == clip;
    assert !IsWhitespace(clip[j]);
  }

  lemma SchemeMatches(text: string, clip: string, end: nat, scheme: string)
    requires end < |text| && end < |clip| && forall i :: 0 <= i <= end ==> clip[i] == text[i]
    requires text[end] == ' ' && EndsWith(Lower(text[..end]), scheme)
    ensures MatchesAt(clip, scheme + " ", end - |scheme|)
  {
    var j, m, lower := end - |scheme|, scheme + " ", Lower(text[..end]);
    forall k | 0 <= k < |m|
      ensures LowerChar(clip[j + k]) == m[k]
    {
      if k < |scheme| { assert LowerChar(text[j + k]) == lower[j + k] == lower[j..][k]; }
    }
  }

  lemma MarkerOfClipIsKept(text: string, m: string, j: int)
    requires MAX_STRING_CHARS < |text| <= MAX_TEXT_LENGTH
    requires IsMarker(m) && MarkerInside(Clip(text), m, j)
    ensures j + |m| <= ClipPrefix(|text|)
  {
    ClipShape(text);
    var _, k := MarkerLetters(m);
    assert LowerChar(Clip(text)[j + k]) == m[k];
    MatchIsPrintable(Clip(text), m, j, ClipPrefix(|text|));
  }

  lemma MatchIsPrintable(s: string, m: string, j: int, p: nat)
    requires IsMarker(m) && MatchesAt(s, m, j)
    ensures j <= p < j + |m| ==> LowerChar(s[p]) <= '~'
  {
    MarkerShape(m);
    if j <= p < j + |m| { assert LowerChar(s[j + (p - j)]) == m[p - j]; }
  }

  lemma KeptMarkerIsExposed(text: string, m: string, j: int)
    requires MAX_STRING_CHARS < |text| <= MAX_TEXT_LENGTH
    requires !SensitiveText(text) && IsMarker(m)
    requires MarkerInside(Clip(text), m, j) && j + |m| <= ClipPrefix(|text|)
    ensures ExposesScheme(text)
  {
    ClipShape(text);
    MatchesKept(Clip(text), text, ClipPrefix(|text|), m, j);
    MarkerAcrossTrimmedEnd(text, m, j);
    SchemeAtEnd(text, m, j);
    SchemeOfMarker(m);
  }

  lemma SchemeOfMarker(m: string)
    requires m == "bearer " || m == "basic "
    ensures m[..|m| - 1] == "bearer" || m[..|m| - 1] == "basic"
  {
  }

  lemma PrintableIsNotBlank(c: char)
    requires ' ' < LowerChar(c) <= '~'
    ensures !IsWhitespace(c)
  {
  }

  lemma MarkerEdges(text: string, m: string, j: int)
    requires IsMarker(m) && MatchesAt(text, m, j)
    ensures |m| >= 6
    ensures !IsWhitespace(text[j]) && !IsWhitespace(text[j + |m| - 2])
    ensures m == "bearer " || m == "basic " || !IsWhitespace(text[j + |m| - 1])
  {
    MarkerShape(m);
    assert LowerChar(text[j + 0]) == m[0];
    assert LowerChar(text[j + (|m| - 2)]) == m[|m| - 2];
    assert LowerChar(text[j + (|m| - 1)]) == m[|m| - 1];
    PrintableIsNotBlank(text[j]);
    PrintableIsNotBlank(text[j + |m| - 2]);
    if m != "bearer " && m != "basic " { PrintableIsNotBlank(text[j + |m| - 1]); }
  }

  /** A marker of a text that is not sensitive only fails to count because of its last, trimmed blank. */
  lemma MarkerAcrossTrimmedEnd(text: string, m: string, j: int)
    requires IsMarker(m) && MatchesAt(text, m, j) && !SensitiveText(text)
    ensures m == "bearer " || m == "basic "
    ensures TrimmedLength(text) == j + |m| - 1
  {
    MarkerEdges(text, m, j);
    var end := TrimmedLength(text);
    assert j + |m| - 1 <= end;
    assert text[..end][j] == text[j];
    if j + |m| <= end { MarkerInsideIsSensitive(text, m, j); }
  }

  lemma SchemeAtEnd(text: string, m: string, j: int)
    requires MatchesAt(text, m, j) && (m == "bearer " || m == "basic ")
    ensures text[j + |m| - 1] == ' '
    ensures EndsWith(Lower(text[..j + |m| - 1]), m[..|m| - 1])
  {
    var end := j + |m| - 1;
    assert LowerChar(text[j + (|m| - 1)]) == m[|m| - 1];
    assert Lower(text[..end])[j..] == m[..|m| - 1];
  }

  lemma ClipIsNotMedia(text: string, hint: Option<string>)
    requires MAX_STRING_CHARS < |text| <= MAX_TEXT_LENGTH
    requires !Media(text, hint)
    ensures !Media(Clip(text), hint)
  {
    ClipShape(text);
    var clip, p := Clip(text), ClipPrefix(|text|);
    var from := LeadingBlanks(clip);
    assert from <= p;
    assert Trim(clip)[p - from] == MORE_KEY[0];
    if DataUrl(clip) {
      DataUrlOfClip(text);
    }
  }

  lemma DataUrlOfClip(text: string)
    requires MAX_STRING_CHARS < |text| <= MAX_TEXT_LENGTH
    requires DataUrl(Clip(text))
    ensures DataUrl(text)
  {
    ClipShape(text);
    var clip, p := Clip(text), ClipPrefix(|text|);
    var from := LeadingBlanks(clip);
    assert from <= p;
    var start := Lower(TrimStart(clip));
    assert forall i :: 0 <= i < 5 ==> start[i] == start[..5][i] == "data:"[i];
    assert start[p - from] == LowerChar(clip[p]);
    assert from + 5 <= p;
    assert LeadingBlanks(text) == from;
    assert Lower(TrimStart(text))[..5] == start[..5];
  }

  lemma ClipIsNotPlaceholder(text: string)
    requires MAX_STRING_CHARS < |text| <= MAX_TEXT_LENGTH
    ensures !Placeholder(Clip(text))
  {
    ClipShape(text);
    SecondToLast(Clip(text), " omitted>");
    SecondToLast(Clip(text), " chars>");
  }

  lemma SecondToLast(s: string, suffix: string)
    requires |suffix| > 1
    ensures EndsWith(s, suffix) ==> s[|s| - 2] == suffix[|suffix| - 2]
  {
    assert EndsWith(s, suffix) ==> s[|s| - |suffix|..][|suffix| - 2] == suffix[|suffix| - 2];
  }

  /** Rewriting a string twice is rewriting it once, exactly when clipping exposes no marker. */
  lemma RedactTextTwice(text: string, hint: Option<string>)
    requires |text| <= MAX_TEXT_LENGTH
    ensures RedactText(RedactText(text, hint), hint) == RedactText(text, hint)
        <==> !(IsClipped(text, hint) && ExposesScheme(text))
  {
    if IsClipped(text, hint) {
      ClipShape(text);
      ClipSensitive(text);
      ClipIsNotMedia(text, hint);
      ClipIsNotPlaceholder(text);
    } else {
      MediaMarkIsPlaceholder(|text|);
    }
  }

  lemma MediaMarkIsPlaceholder(count: nat)
    ensures Placeholder("<media/binary omitted: " + Decimal(count) + " chars>")
  {
    var mark := "<media/binary omitted: " + Decimal(count) + " chars>";
    assert mark[..23] == "<media/binary omitted: ";
    assert mark[|mark| - 7..] == " chars>";
  }
}
