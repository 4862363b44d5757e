/** The DriverLicense value object: a licence number, validated against a
    fixed-shape pattern when created with `withLicense`. */
module DriverLicense {
  import opened Wrappers

  datatype DriverLicense = DriverLicense(license: string)

  /** The character classes the licence pattern uses. */
  datatype CharClass =
    | UpperOrNine   // [A-Z9]
    | Digit         // \d (ASCII digits: the pattern has no Unicode modifier)
    | Upper         // [A-Z]

  predicate InClass(c: char, cls: CharClass) {
    match cls
    case UpperOrNine => 'A' <= c <= 'Z' || c == '9'
    case Digit => '0' <= c <= '9'
    case Upper => 'A' <= c <= 'Z'
  }

  /** `[A-Z9]{5}\d{6}[A-Z9]{2}\d[A-Z]{2}`, one class per character. */
  const LicensePattern: seq<CharClass> :=
    [UpperOrNine, UpperOrNine, UpperOrNine, UpperOrNine, UpperOrNine,
     Digit, Digit, Digit, Digit, Digit, Digit,
     UpperOrNine, UpperOrNine,
     Digit,
     Upper, Upper]

  /** The whole of `s` matches the pattern, character by character. */
  predicate Matches(s: string, pattern: seq<CharClass>) {
    if pattern == [] then s == []
    else s != [] && InClass(s[0], pattern[0]) && Matches(s[1..], pattern[1..])
  }

  /** What `preg_match('/^…$/', s)` accepts: without the D modifier, `$`
      also matches just before a final newline. */
  predicate MatchesAnchoredAsWritten(s: string, pattern: seq<CharClass>) {
    Matches(s, pattern)
    || (|s| == |pattern| + 1 && s[|s| - 1] == '\n' && Matches(s[..|s| - 1], pattern))
  }

  function IllegalLicense(license: string): Error {
    InvalidArgument("Illegal license no = " + license)
  }

  /** `withLicense` as written, including the newline the anchor lets through. */
  function WithLicenseAsWritten(license: string): (r: Result<DriverLicense>)
    ensures r.Ok? <==> MatchesAnchoredAsWritten(license, LicensePattern)
    ensures r.Ok? ==> r.value.license == license
    ensures r.Err? ==> r.error == IllegalLicense(license)
  {
    if license == "" || !MatchesAnchoredAsWritten(license, LicensePattern) then Err(IllegalLicense(license))
    else Ok(DriverLicense(license))
  }

  /** `withLicense` with the pattern anchored at the very end of the string. */
  function WithLicense(license: string): (r: Result<DriverLicense>)
    ensures r.Ok? <==> Matches(license, LicensePattern)
    ensures r.Ok? ==> r.value.license == license
    ensures r.Err? ==> r.error == IllegalLicense(license)
  {
    if license == "" || !Matches(license, LicensePattern) then Err(IllegalLicense(license))
    else Ok(DriverLicense(license))
  }

  function WithoutValidation(license: string): DriverLicense {
    DriverLicense(license)
  }

  function ToString(d: DriverLicense): string {
    d.license
  }

  // ---------------------------------------------------------------- properties

  /** A string matches a pattern exactly when it has one character per class
      and each character is in its class. */
  lemma {:induction false} MatchesPositionwise(s: string, pattern: seq<CharClass>)
    ensures Matches(s, pattern) <==>
      |s| == |pattern| && forall i :: 0 <= i < |s| ==> InClass(s[i], pattern[i])
  {
    if pattern != [] && s != [] {
      MatchesPositionwise(s[1..], pattern[1..]);
      if |s| == |pattern| && forall i :: 0 <= i < |s| ==> InClass(s[i], pattern[i]) {
        forall i | 0 <= i < |s| - 1 ensures InClass(s[1..][i], pattern[1..][i]) {
          assert InClass(s[i + 1], pattern[i + 1]);
        }
      }
    }
  }

  /** Every accepted licence is 16 characters: five of [A-Z9], six digits,
      two of [A-Z9], a digit and two capital letters. */
  lemma AcceptedShape(license: string)
    requires WithLicense(license).Ok?
    ensures |license| == 16
    ensures forall i :: 0 <= i < 5 ==> InClass(license[i], UpperOrNine)
    ensures forall i :: 5 <= i < 11 ==> InClass(license[i], Digit)
    ensures InClass(license[11], UpperOrNine) && InClass(license[12], UpperOrNine)
    ensures InClass(license[13], Digit)
    ensures InClass(license[14], Upper) && InClass(license[15], Upper)
  {
    MatchesPositionwise(license, LicensePattern);
  }

  lemma EmptyLicenseRejected()
    ensures WithLicense("") == Err(InvalidArgument("Illegal license no = "))
  {
  }

  /** The stored number comes back unchanged through either factory. */
  lemma ToStringRoundTrip(license: string)
    ensures ToString(WithoutValidation(license)) == license
    ensures WithLicense(license).Ok? ==> ToString(WithLicense(license).value) == license
  {
  }

  /** "FARME100165AB5EW", the licence number the fixtures use, fits the pattern. */
  lemma SampleMatches()
    ensures Matches("FARME100165AB5EW", LicensePattern)
  {
    var good := "FARME100165AB5EW";
    forall i | 0 <= i < 16 ensures InClass(good[i], LicensePattern[i]) {
      if i == 0 {} else if i == 1 {} else if i == 2 {} else if i == 3 {} else if i == 4 {} else if i == 5 {} else if i == 6 {} else if i == 7 {} else if i == 8 {} else if i == 9 {} else if i == 10 {} else if i == 11 {} else if i == 12 {} else if i == 13 {} else if i == 14 {} else {}
    }
    MatchesPositionwise(good, LicensePattern);
  }

  lemma SampleAccepted()
    ensures WithLicense("FARME100165AB5EW") == Ok(DriverLicense("FARME100165AB5EW"))
  {
    SampleMatches();
  }

  lemma InvalidSampleRejected()
    ensures WithLicense("invalid license number") == Err(InvalidArgument("Illegal license no = invalid license number"))
  {
    var bad := "invalid license number";
    MatchesPositionwise(bad, LicensePattern);
    assert !Matches(bad, LicensePattern);
  }

  /** As written, the valid number followed by a newline is accepted, and the
      stored licence then carries the newline; the anchored pattern refuses it. */
  lemma TrailingNewlineAccepted()
    ensures WithLicenseAsWritten("FARME100165AB5EW\n").Ok?
  {
    var bad := "FARME100165AB5EW\n";
    assert |bad| == 17 && bad[16] == '\n';
    assert bad[..16] == "FARME100165AB5EW";
    SampleMatches();
    assert MatchesAnchoredAsWritten(bad, LicensePattern);
  }

  lemma TrailingNewlineRefused()
    ensures WithLicense("FARME100165AB5EW\n").Err?
  {
    var bad := "FARME100165AB5EW\n";
    MatchesPositionwise(bad, LicensePattern);
    assert !Matches(bad, LicensePattern);
  }

  /** Where the anchor matters no more, both versions agree. */
  lemma AsWrittenAgreesWithoutFinalNewline(license: string)
    requires license == [] || license[|license| - 1] != '\n'
    ensures WithLicenseAsWritten(license) == WithLicense(license)
  {
  }
}
