/** What the public form of an error says. */
module PublicErrors {
  import opened Outcomes
  import opened Text
  import opened TelemetryEvents

  predicate ErrorMarker(marker: string) {
    || marker == "authorization" || marker == "bearer " || marker == "basic " || marker == "api key" || marker == "api_key"
    || marker == "apikey" || marker == "access token" || marker == "access_token" || marker == "secret"
    || marker == "token=" || marker == "token:" || marker == "password" || marker == "credential" || marker == "cookie"
    || marker == "session=" || marker == "session:"
  }

  lemma ErrorMarkersAreListed(marker: string) returns (i: nat)
    requires ErrorMarker(marker)
    ensures i < |ERROR_MARKERS| && ERROR_MARKERS[i] == marker
  {
    i := if marker == "authorization" then 0 else if marker == "bearer " then 1 else if marker == "basic " then 2
         else if marker == "api key" then 3 else if marker == "api_key" then 4 else if marker == "apikey" then 5
         else if marker == "access token" then 6 else if marker == "access_token" then 7 else if marker == "secret" then 8
         else if marker == "token=" then 9 else if marker == "token:" then 10 else if marker == "password" then 11
         else if marker == "credential" then 12 else if marker == "cookie" then 13 else if marker == "session=" then 14
         else 15;
  }

  lemma ListedMarkersAreKnown(i: nat)
    requires i < |ERROR_MARKERS|
    ensures ErrorMarker(ERROR_MARKERS[i])
  {
  }

  /** An error is redacted exactly when one of these markers is in it, in whatever case. */
  lemma RedactedErrorsHaveMarkers(text: string)
    ensures HasErrorMarker(text) <==> exists marker :: ErrorMarker(marker) && Contains(Lower(text), marker)
  {
    if HasErrorMarker(text) {
      var i :| 0 <= i < |ERROR_MARKERS| && Contains(Lower(text), ERROR_MARKERS[i]);
      ListedMarkersAreKnown(i);
    }
    forall marker | ErrorMarker(marker) && Contains(Lower(text), marker)
      ensures HasErrorMarker(text)
    {
      var i := ErrorMarkersAreListed(marker);
    }
  }

  predicate IsBlank(text: string) {
    forall i :: 0 <= i < |text| ==> IsWhitespace(text[i])
  }

  lemma BlankIsTrimmedAway(text: string)
    ensures Trim(text) == "" <==> IsBlank(text)
  {
    var n := TrimmedLength(text);
    if IsBlank(text) {
      assert n == 0;
    } else {
      assert n > 0 && !IsWhitespace(text[..n][n - 1]);
      assert LeadingBlanks(text[..n]) <= n - 1;
    }
  }

  /** A redacted error says only so. Any other one keeps its first 512 characters, where a blank stands for a control
      character that is no line feed, unless they are blank. */
  lemma PublicErrorIs(text: string)
    ensures var out := SafeObserverError(text);
      if HasErrorMarker(text) then out == "Provider failed; sensitive details were redacted"
      else out == "unknown error"
           || (&& |out| == (if |text| < 512 then |text| else 512)
               && forall i :: 0 <= i < |out| ==> out[i] == if IsControl(text[i]) && text[i] != '\n' then ' ' else text[i])
    ensures !HasErrorMarker(text) && (exists i :: 0 <= i < |text| && i < 512 && !IsWhitespace(text[i]) && !IsControl(text[i]))
      ==> SafeObserverError(text) == ErrorHead(text)
    ensures !HasErrorMarker(text) && (forall i :: 0 <= i < |text| && i < 512 ==> IsWhitespace(text[i]) || IsControl(text[i]))
      ==> SafeObserverError(text) == "unknown error"
  {
    BlankIsTrimmedAway(ErrorHead(text));
    var head := ErrorHead(text);
    assert forall i :: 0 <= i < |head| ==> head[i] == if IsControl(text[i]) && text[i] != '\n' then ' ' else text[i];
    forall i | 0 <= i < |head|
      ensures IsWhitespace(head[i]) <==> IsWhitespace(text[i]) || IsControl(text[i])
    {
    }
  }

  /** So a short plain error is shown as it is. */
  lemma PlainErrorIsShown(text: string, i: nat)
    requires |text| <= 512 && !HasErrorMarker(text) && i < |text| && !IsWhitespace(text[i])
    requires forall k :: 0 <= k < |text| ==> text[k] == '\n' || !IsControl(text[k])
    ensures SafeObserverError(text) == text
  {
    PublicErrorIs(text);
    assert !IsControl(text[i]);
    assert ErrorHead(text) == text;
  }
}
