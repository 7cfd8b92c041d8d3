/** The string operations that the redaction rules are built from. A `char` is a Unicode scalar
    value, as in Rust, so lengths count characters and not bytes. */
module Text {

  /** `char::is_whitespace`: the Unicode White_Space property. */
  predicate IsWhitespace(c: char) {
    var n := c as int;
    || 0x9 <= n <= 0xD
    || n == 0x20 || n == 0x85 || n == 0xA0 || n == 0x1680
    || 0x2000 <= n <= 0x200A
    || n == 0x2028 || n == 0x2029 || n == 0x202F || n == 0x205F || n == 0x3000
  }

  predicate IsDigit(c: char) {
    '0' <= c <= '9'
  }

  predicate IsAsciiAlphanumeric(c: char) {
    IsDigit(c) || 'a' <= c <= 'z' || 'A' <= c <= 'Z'
  }

  /** `char::is_control`: the Unicode Cc category. */
  predicate IsControl(c: char) {
    (c as int) < 0x20 || 0x7F <= (c as int) < 0xA0
  }

  function LowerChar(c: char): char {
    if 'A' <= c <= 'Z' then (c as int + 32) as char else c
  }

  function Lower(s: string): (r: string)
    ensures |r| == |s|
  {
    seq(|s|, i requires 0 <= i < |s| => LowerChar(s[i]))
  }

  /** How many leading characters are whitespace. */
  function LeadingBlanks(s: string): (n: nat)
    ensures n <= |s|
    ensures forall i :: 0 <= i < n ==> IsWhitespace(s[i])
    ensures n < |s| ==> !IsWhitespace(s[n])
  {
    if s == [] || !IsWhitespace(s[0]) then 0 else 1 + LeadingBlanks(s[1..])
  }

  /** The length that is left once trailing whitespace is gone. */
  function TrimmedLength(s: string): (n: nat)
    ensures n <= |s|
    ensures forall i :: n <= i < |s| ==> IsWhitespace(s[i])
    ensures n > 0 ==> !IsWhitespace(s[n - 1])
  {
    if s == [] || !IsWhitespace(s[|s| - 1]) then |s| else TrimmedLength(s[..|s| - 1])
  }

  function TrimStart(s: string): string {
    s[LeadingBlanks(s)..]
  }

  function Trim(s: string): string {
    TrimStart(s[..TrimmedLength(s)])
  }

  predicate StartsWith(s: string, prefix: string) {
    |prefix| <= |s| && s[..|prefix|] == prefix
  }

  predicate EndsWith(s: string, suffix: string) {
    |suffix| <= |s| && s[|s| - |suffix|..] == suffix
  }

  predicate OccursAt(s: string, part: string, i: nat) {
    i + |part| <= |s| && s[i..i + |part|] == part
  }

  predicate Contains(s: string, part: string) {
    exists i: nat | i <= |s| :: OccursAt(s, part, i)
  }

  /** Whether `part` occurs at `j`, ignoring ASCII case. */
  predicate MatchesAt(s: string, part: string, j: int) {
    0 <= j && j + |part| <= |s| && forall k :: 0 <= k < |part| ==> LowerChar(s[j + k]) == part[k]
  }

  /** Decimal rendering, without a sign. */
  function Decimal(n: nat): (s: string)
    ensures s != [] && forall i :: 0 <= i < |s| ==> IsDigit(s[i])
  {
    var digit := ('0' as int + n % 10) as char;
    if n < 10 then [digit] else Decimal(n / 10) + [digit]
  }

  /** The number that a text of digits stands for. */
  function NumberOf(digits: string): nat
    requires forall i :: 0 <= i < |digits| ==> IsDigit(digits[i])
  {
    if digits == [] then 0
    else
      var last := digits[|digits| - 1];
      assert IsDigit(last);
      10 * NumberOf(digits[..|digits| - 1]) + (last as int - '0' as int)
  }

  /** Reading a rendered number gives it back, and no zeros lead. */
  lemma {:induction false} DecimalIsTheNumber(n: nat)
    ensures NumberOf(Decimal(n)) == n
    ensures n > 0 ==> Decimal(n)[0] != '0'
  {
    if n < 10 {
      assert Decimal(n)[..0] == [];
    } else {
      DecimalIsTheNumber(n / 10);
      assert Decimal(n)[..|Decimal(n)| - 1] == Decimal(n / 10);
    }
  }

  /** Trimming takes the blanks at both ends and nothing else. */
  lemma TrimTakesTheBlanks(s: string) returns (a: nat, b: nat)
    ensures a <= b <= |s| && Trim(s) == s[a..b]
    ensures forall i :: 0 <= i < a || b <= i < |s| ==> IsWhitespace(s[i])
    ensures a < b ==> !IsWhitespace(s[a]) && !IsWhitespace(s[b - 1])
  {
    b := TrimmedLength(s);
    a := LeadingBlanks(s[..b]);
    assert forall i :: 0 <= i < b ==> s[..b][i] == s[i];
  }

  function PowerOfTen(k: nat): nat {
    if k == 0 then 1 else 10 * PowerOfTen(k - 1)
  }

  lemma {:induction false} DecimalLength(n: nat, k: nat)
    requires n < PowerOfTen(k)
    ensures |Decimal(n)| <= k || |Decimal(n)| == 1
  {
    if n >= 10 {
      DecimalLength(n / 10, k - 1);
    }
  }

  lemma ContainsOnlyItsLetters(s: string, part: string, c: char)
    requires Contains(s, part) && c in part
    ensures c in s
  {
    var i: nat :| i <= |s| && OccursAt(s, part, i);
    var k :| 0 <= k < |part| && part[k] == c;
    assert s[i + k] == s[i..i + |part|][k];
  }

  /** Lexicographic order on code points, which is also the order of the UTF-8 bytes. */
  predicate Less(a: string, b: string) {
    if b == [] then false
    else if a == [] then true
    else if a[0] != b[0] then a[0] < b[0]
    else Less(a[1..], b[1..])
  }

  lemma {:induction false} LessIrreflexive(a: string)
    ensures !Less(a, a)
  {
    if a != [] { LessIrreflexive(a[1..]); }
  }

  lemma {:induction false} LessTransitive(a: string, b: string, c: string)
    requires Less(a, b) && Less(b, c)
    ensures Less(a, c)
  {
    if a != [] && a[0] == b[0] == c[0] { LessTransitive(a[1..], b[1..], c[1..]); }
  }

  lemma {:induction false} LessTotal(a: string, b: string)
    ensures Less(a, b) || a == b || Less(b, a)
  {
    if a != [] && b != [] && a[0] == b[0] {
      LessTotal(a[1..], b[1..]);
      if a[1..] == b[1..] { assert a == [a[0]] + a[1..] && b == [b[0]] + b[1..]; }
    }
  }
}
