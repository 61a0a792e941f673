/** The field validators and the IBAN formatter of the manual request form (src/utils/formValidation.ts). */
module FormValidation {
  import opened Wrappers
  import opened Text

  datatype Severity = Error | Warning | Info

  /** `ValidationResult`: `message` and `severity` are absent in a bare `{ isValid: true }`. */
  datatype ValidationResult = ValidationResult(isValid: bool, message: Option<string>, severity: Option<Severity>)

  function Invalid(message: string): ValidationResult { ValidationResult(false, Some(message), Some(Error)) }
  function ValidWith(message: string): ValidationResult { ValidationResult(true, Some(message), Some(Info)) }
  const Ok := ValidationResult(true, None, None)

  predicate IsUpperAlnum(c: char) { IsUpperLetter(c) || IsDigit(c) }

  /** `s.replace(/\s/g, '').toUpperCase()`. */
  function Clean(s: string): (c: string)
    ensures forall i :: 0 <= i < |c| ==> !IsSpace(c[i])
  {
    ToUpper(StripSpaces(s))
  }

  /** Lower-casing before cleaning changes nothing. */
  lemma {:induction false} CleanIgnoresCase(s: string)
    ensures Clean(ToLower(s)) == Clean(s)
  {
    StripSpacesLower(s);
    var t := StripSpaces(s);
    assert ToUpper(ToLower(t)) == ToUpper(t) by {
      forall i | 0 <= i < |t|
        ensures ToUpper(ToLower(t))[i] == ToUpper(t)[i]
      {
      }
    }
  }

  lemma {:induction false} StripSpacesLower(s: string)
    ensures StripSpaces(ToLower(s)) == ToLower(StripSpaces(s))
  {
    if s != [] {
      assert ToLower(s)[1..] == ToLower(s[1..]);
      StripSpacesLower(s[1..]);
      assert ToLower(s)[0] == LowerChar(s[0]);
      assert ToLower([s[0]] + StripSpaces(s[1..])) == [LowerChar(s[0])] + ToLower(StripSpaces(s[1..]));
    }
  }

  /** A cleaned string is its own upper-case form. */
  lemma CleanIsUpper(s: string)
    ensures ToUpper(Clean(s)) == Clean(s)
  {
    ToUpperIdempotent(StripSpaces(s));
  }

  // ---------------------------------------------------------------- IBAN (ISO 13616)

  /** `/^[A-Z]{2}[0-9]{2}[A-Z0-9]+$/`: country letters, check digits, then a non-empty alphanumeric account part. */
  predicate IbanShape(c: string) {
    |c| >= 5 && IsUpperLetter(c[0]) && IsUpperLetter(c[1]) && IsDigit(c[2]) && IsDigit(c[3])
    && forall i :: 4 <= i < |c| ==> IsUpperAlnum(c[i])
  }

  /** One character of `replace(/[A-Z]/g, ch => (ch.charCodeAt(0) - 55).toString())`: A is 10, ..., Z is 35. */
  function ExpandChar(c: char): string {
    if IsUpperLetter(c) then NatToString(c as int - 55) else [c]
  }

  /** The letter-to-number expansion of ISO 7064 MOD 97-10 as ISO 13616 applies it. */
  function ExpandLetters(s: string): string {
    if s == [] then [] else ExpandChar(s[0]) + ExpandLetters(s[1..])
  }

  /** The decimal value of a digit string (what `BigInt(numericString)` reads). */
  function DecimalValue(s: string): nat {
    if s == [] then 0
    else DecimalValue(s[..|s| - 1]) * 10 + (if IsDigit(s[|s| - 1]) then s[|s| - 1] as int - '0' as int else 0)
  }

  /** `validateIBAN`. The `catch` branch is left out: `BigInt` of a digit string does not throw. */
  function ValidateIBAN(iban: string): ValidationResult {
    if iban == "" then Invalid("IBAN is required")
    else
      var clean := Clean(iban);
      if Utf16Length(clean) < 15 || Utf16Length(clean) > 34 then Invalid("IBAN must be between 15-34 characters")
      else if !IbanShape(clean) then Invalid("Invalid IBAN format (e.g., GB82WEST12345698765432)")
      else
        var numeric := ExpandLetters(clean[4..] + clean[..4]);
        if |numeric| > 15 then ValidWith("IBAN format appears valid")
        else if DecimalValue(numeric) % 97 != 1 then Invalid("IBAN checksum validation failed")
        else ValidWith("Valid IBAN")
  }

  /** A letter expands to exactly two digits. */
  lemma LetterExpandsToTwo(c: char)
    requires IsUpperLetter(c)
    ensures |ExpandChar(c)| == 2
  {
    var n := c as int - 55;
    assert 10 <= n <= 35;
    assert NatToString(n) == NatToString(n / 10) + [DigitChar(n % 10)];
  }

  /** The expansion distributes over concatenation. */
  lemma {:induction false} ExpandAppend(a: string, b: string)
    ensures ExpandLetters(a + b) == ExpandLetters(a) + ExpandLetters(b)
  {
    if a == [] {
      assert a + b == b;
    } else {
      assert (a + b)[1..] == a[1..] + b;
      ExpandAppend(a[1..], b);
    }
  }

  /** The expansion never shortens a string. */
  lemma {:induction false} ExpandLength(s: string)
    ensures |ExpandLetters(s)| >= |s|
  {
    if s != [] {
      ExpandLength(s[1..]);
      if IsUpperLetter(s[0]) {
        LetterExpandsToTwo(s[0]);
      }
    }
  }

  /** For every IBAN of valid length and shape the expanded number has more than 15 digits,
      so the checksum branch of `validateIBAN` is never reached. */
  lemma ChecksumBranchUnreachable(clean: string)
    requires 15 <= |clean| && IbanShape(clean)
    ensures |ExpandLetters(clean[4..] + clean[..4])| > 15
  {
    var head := clean[..4];
    ExpandAppend(clean[4..], head);
    ExpandLength(clean[4..]);
    assert head == [head[0]] + ([head[1]] + head[2..]);
    ExpandAppend([head[0]], [head[1]] + head[2..]);
    ExpandAppend([head[1]], head[2..]);
    LetterExpandsToTwo(head[0]);
    LetterExpandsToTwo(head[1]);
    assert ExpandLetters([head[0]]) == ExpandChar(head[0]);
    assert ExpandLetters([head[1]]) == ExpandChar(head[1]);
    ExpandLength(head[2..]);
  }

  /** The IBAN shape admits only ASCII characters, whose UTF-16 length is their number. */
  lemma IbanShapeLength(c: string)
    requires IbanShape(c)
    ensures Utf16Length(c) == |c|
  {
    assert forall i :: 0 <= i < |c| ==> !IsAstral(c[i]) by {
      forall i | 0 <= i < |c|
        ensures !IsAstral(c[i])
      {
        if i >= 4 {
          assert IsUpperAlnum(c[i]);
        }
      }
    }
  }

  /** `validateIBAN` accepts exactly the non-empty inputs whose cleaned form has 15..34 characters and the IBAN
      shape, and then always answers "IBAN format appears valid". A cleaned form outside 15..34 UTF-16 code units
      gets the length message. */
  lemma ValidateIBANIff(iban: string)
    ensures ValidateIBAN(iban).isValid <==> iban != "" && 15 <= |Clean(iban)| <= 34 && IbanShape(Clean(iban))
    ensures ValidateIBAN(iban).isValid ==> ValidateIBAN(iban) == ValidWith("IBAN format appears valid")
    ensures iban == "" ==> ValidateIBAN(iban) == Invalid("IBAN is required")
    ensures iban != "" && !(15 <= Utf16Length(Clean(iban)) <= 34) ==>
              ValidateIBAN(iban) == Invalid("IBAN must be between 15-34 characters")
  {
    if IbanShape(Clean(iban)) {
      IbanShapeLength(Clean(iban));
      if iban != "" && 15 <= |Clean(iban)| <= 34 {
        ChecksumBranchUnreachable(Clean(iban));
      }
    }
  }

  /** Case does not matter to `validateIBAN`. */
  lemma ValidateIBANIgnoresCase(iban: string)
    ensures ValidateIBAN(ToLower(iban)) == ValidateIBAN(iban)
  {
    CleanIgnoresCase(iban);
  }

  // ---------------------------------------------------------------- SWIFT / BIC (ISO 9362)

  /** `/^[A-Z]{4}[A-Z]{2}[A-Z0-9]{2}([A-Z0-9]{3})?$/`. */
  predicate SwiftRegex(c: string) {
    (|c| == 8 || |c| == 11)
    && (forall i :: 0 <= i < 4 ==> IsUpperLetter(c[i]))
    && (forall i :: 4 <= i < 6 ==> IsUpperLetter(c[i]))
    && (forall i :: 6 <= i < 8 ==> IsUpperAlnum(c[i]))
    && (|c| == 11 ==> forall i :: 8 <= i < 11 ==> IsUpperAlnum(c[i]))
  }

  /** `validateSWIFT`. */
  function ValidateSWIFT(swift: string): ValidationResult {
    if swift == "" then Invalid("SWIFT code is required")
    else
      var clean := Clean(swift);
      if Utf16Length(clean) != 8 && Utf16Length(clean) != 11 then Invalid("SWIFT code must be 8 or 11 characters")
      else if !SwiftRegex(clean) then Invalid("Invalid SWIFT format (e.g., DEUTDEFF or DEUTDEFF500)")
      else ValidWith("Valid SWIFT code")
  }

  /** A BIC in ISO 9362 terms: a bank code, a country code and a location code, then an optional branch code. */
  predicate IsBic(c: string) {
    |c| >= 8
    && (forall i :: 0 <= i < 6 ==> IsUpperLetter(c[i]))
    && (forall i :: 6 <= i < |c| ==> IsUpperAlnum(c[i]))
    && (|c| == 8 || |c| == 11)
  }

  /** A string of upper-case letters and digits has as many UTF-16 code units as characters. */
  lemma UpperAlnumLength(c: string)
    requires forall i :: 0 <= i < |c| ==> IsUpperAlnum(c[i])
    ensures Utf16Length(c) == |c|
  {
    assert forall i :: 0 <= i < |c| ==> !IsAstral(c[i]);
  }

  /** `validateSWIFT` accepts exactly the non-empty inputs whose cleaned form is a BIC. A cleaned form of a
      UTF-16 length other than 8 and 11 gets the length message. */
  lemma ValidateSWIFTIff(swift: string)
    ensures ValidateSWIFT(swift).isValid <==> swift != "" && IsBic(Clean(swift))
    ensures !ValidateSWIFT(swift).isValid ==> ValidateSWIFT(swift).severity == Some(Error)
    ensures swift != "" && Utf16Length(Clean(swift)) != 8 && Utf16Length(Clean(swift)) != 11 ==>
              ValidateSWIFT(swift) == Invalid("SWIFT code must be 8 or 11 characters")
  {
    var c := Clean(swift);
    if IsBic(c) || SwiftRegex(c) {
      assert forall i :: 0 <= i < |c| ==> IsUpperAlnum(c[i]);
      UpperAlnumLength(c);
    }
  }

  /** Case does not matter to `validateSWIFT`. */
  lemma ValidateSWIFTIgnoresCase(swift: string)
    ensures ValidateSWIFT(ToLower(swift)) == ValidateSWIFT(swift)
  {
    CleanIgnoresCase(swift);
  }

  // ---------------------------------------------------------------- required and length

  /** `validateRequired`. */
  function ValidateRequired(value: string, fieldName: string): ValidationResult {
    if IsBlank(value) then Invalid(fieldName + " is required") else Ok
  }

  /** A value passes exactly when it holds a character outside `\s`. */
  lemma ValidateRequiredIff(value: string, fieldName: string)
    ensures ValidateRequired(value, fieldName).isValid <==> exists i :: 0 <= i < |value| && !IsSpace(value[i])
  {
    BlankIff(value);
  }

  /** `validateLength`. */
  function ValidateLength(value: string, minLength: int, maxLength: int, fieldName: string): ValidationResult {
    if Utf16Length(value) < minLength then Invalid(fieldName + " must be at least " + IntToString(minLength) + " characters")
    else if Utf16Length(value) > maxLength then Invalid(fieldName + " cannot exceed " + IntToString(maxLength) + " characters")
    else Ok
  }

  /** A value passes exactly when its length in UTF-16 code units lies within the bounds; the short message wins
      when both fail. */
  lemma ValidateLengthIff(value: string, minLength: int, maxLength: int, fieldName: string)
    ensures ValidateLength(value, minLength, maxLength, fieldName).isValid <==> minLength <= Utf16Length(value) <= maxLength
    ensures ValidateLength(value, minLength, maxLength, fieldName).isValid ==>
              ValidateLength(value, minLength, maxLength, fieldName) == Ok
    ensures minLength > maxLength ==> !ValidateLength(value, minLength, maxLength, fieldName).isValid
  {
  }

  // ---------------------------------------------------------------- validateField

  /** `isRequiredField`'s list. */
  const RequiredFields: seq<string> := [
    "country", "projectName", "contractReference", "requestedAmount", "paymentPurpose", "valueDate",
    "beneficiaryName", "bankName", "iban", "swiftCode", "authorizedRepresentative1", "signatureDate"
  ]

  predicate IsRequiredField(fieldName: string) { fieldName in RequiredFields }

  /** `getFieldDisplayName`'s table. */
  const DisplayNames: map<string, string> := map[
    "projectNumber" := "Project Number", "referenceNumber" := "Reference Number", "country" := "Country",
    "projectName" := "Project Name", "projectDescription" := "Project Description",
    "contractReference" := "Contract Reference", "agreementDate" := "Agreement Date",
    "agreementParty" := "Agreement Party", "requestedAmount" := "Requested Amount", "currency" := "Currency",
    "vatStatus" := "VAT Status", "paymentPurpose" := "Payment Purpose", "valueDate" := "Value Date",
    "beneficiaryName" := "Beneficiary Name", "beneficiaryAddress" := "Beneficiary Address",
    "bankName" := "Bank Name", "bankAddress" := "Bank Address", "accountNumber" := "Account Number",
    "iban" := "IBAN", "swiftCode" := "SWIFT Code", "correspondenceBankName" := "Correspondence Bank Name",
    "correspondenceBankAddress" := "Correspondence Bank Address",
    "correspondenceSwiftCode" := "Correspondence SWIFT Code",
    "authorizedRepresentative1" := "Authorized Representative 1",
    "authorizedRepresentative1Title" := "Representative 1 Title",
    "authorizedRepresentative2" := "Authorized Representative 2",
    "authorizedRepresentative2Title" := "Representative 2 Title", "signatureDate" := "Signature Date",
    "additionalNotes" := "Additional Notes", "priority" := "Priority", "requestDate" := "Request Date"
  ]

  /** `getFieldDisplayName`: the table entry, or the key itself. */
  function GetFieldDisplayName(fieldName: string): string {
    if fieldName in DisplayNames && DisplayNames[fieldName] != "" then DisplayNames[fieldName] else fieldName
  }

  /** A required check followed by a length check, as the name-like fields do. */
  function RequiredWithin(value: string, minLength: int, maxLength: int, name: string): ValidationResult {
    var required := ValidateRequired(value, name);
    if !required.isValid then required else ValidateLength(value, minLength, maxLength, name)
  }

  /** The length bounds and display name of the name-like fields. */
  predicate NameBounds(fieldName: string, minLength: int, maxLength: int, name: string) {
    (fieldName == "beneficiaryName" && minLength == 2 && maxLength == 100 && name == "Beneficiary Name")
    || (fieldName == "projectName" && minLength == 2 && maxLength == 200 && name == "Project Name")
    || (fieldName == "paymentPurpose" && minLength == 5 && maxLength == 500 && name == "Payment Purpose")
    || (fieldName == "bankName" && minLength == 2 && maxLength == 100 && name == "Bank Name")
    || (fieldName == "authorizedRepresentative1" && minLength == 2 && maxLength == 100 && name == "Authorized Representative")
  }

  /** `validateField`. Amount and date checks rest on `parseFloat` and `Date` and are passed in. */
  function ValidateField(fieldName: string, value: string,
                         checkAmount: string -> ValidationResult,
                         checkDate: (string, string) -> ValidationResult): ValidationResult {
    if value == "" && !IsRequiredField(fieldName) then Ok
    else if fieldName == "iban" then ValidateIBAN(value)
    else if fieldName == "swiftCode" || fieldName == "correspondenceSwiftCode" then ValidateSWIFT(value)
    else if fieldName == "requestedAmount" then checkAmount(value)
    else if fieldName == "agreementDate" then checkDate(value, "Agreement Date")
    else if fieldName == "valueDate" then checkDate(value, "Value Date")
    else if fieldName == "signatureDate" then checkDate(value, "Signature Date")
    else if fieldName == "beneficiaryName" then RequiredWithin(value, 2, 100, "Beneficiary Name")
    else if fieldName == "projectName" then RequiredWithin(value, 2, 200, "Project Name")
    else if fieldName == "paymentPurpose" then RequiredWithin(value, 5, 500, "Payment Purpose")
    else if fieldName == "bankName" then RequiredWithin(value, 2, 100, "Bank Name")
    else if fieldName == "authorizedRepresentative1" then RequiredWithin(value, 2, 100, "Authorized Representative")
    else if IsRequiredField(fieldName) then ValidateRequired(value, GetFieldDisplayName(fieldName))
    else Ok
  }

  /** An empty optional field is always valid. */
  lemma EmptyOptionalFieldValid(fieldName: string, checkAmount: string -> ValidationResult,
                                checkDate: (string, string) -> ValidationResult)
    requires !IsRequiredField(fieldName)
    ensures ValidateField(fieldName, "", checkAmount, checkDate) == Ok
  {
  }

  /** A required check followed by a length check passes exactly when the value is not blank and within bounds. */
  lemma RequiredWithinIff(value: string, minLength: int, maxLength: int, name: string)
    ensures RequiredWithin(value, minLength, maxLength, name).isValid <==>
              !IsBlank(value) && minLength <= Utf16Length(value) <= maxLength
    ensures IsBlank(value) ==> RequiredWithin(value, minLength, maxLength, name) == Invalid(name + " is required")
  {
  }

  /** A name-like field passes exactly when it is not blank and its length is within its bounds;
      a blank one reports that it is required. */
  lemma NameFieldIff(fieldName: string, value: string, minLength: int, maxLength: int, name: string,
                     checkAmount: string -> ValidationResult, checkDate: (string, string) -> ValidationResult)
    requires NameBounds(fieldName, minLength, maxLength, name)
    ensures ValidateField(fieldName, value, checkAmount, checkDate).isValid <==>
              !IsBlank(value) && minLength <= Utf16Length(value) <= maxLength
    ensures IsBlank(value) ==> ValidateField(fieldName, value, checkAmount, checkDate) == Invalid(name + " is required")
  {
    RequiredWithinIff(value, minLength, maxLength, name);
    NameFieldRoutes(value, checkAmount, checkDate);
  }

  /** Each name-like field goes through the required check and then its own length bounds. */
  lemma NameFieldRoutes(value: string, checkAmount: string -> ValidationResult,
                        checkDate: (string, string) -> ValidationResult)
    ensures ValidateField("beneficiaryName", value, checkAmount, checkDate)
            == RequiredWithin(value, 2, 100, "Beneficiary Name")
    ensures ValidateField("projectName", value, checkAmount, checkDate)
            == RequiredWithin(value, 2, 200, "Project Name")
    ensures ValidateField("paymentPurpose", value, checkAmount, checkDate)
            == RequiredWithin(value, 5, 500, "Payment Purpose")
    ensures ValidateField("bankName", value, checkAmount, checkDate)
            == RequiredWithin(value, 2, 100, "Bank Name")
    ensures ValidateField("authorizedRepresentative1", value, checkAmount, checkDate)
            == RequiredWithin(value, 2, 100, "Authorized Representative")
  {
    assert RequiredFields[1] == "projectName" && RequiredFields[4] == "paymentPurpose";
    assert RequiredFields[6] == "beneficiaryName" && RequiredFields[7] == "bankName";
    assert RequiredFields[10] == "authorizedRepresentative1";
  }

  /** The two SWIFT fields differ only on the empty value: the bank's code is required, the correspondent's is not. */
  lemma SwiftFields(value: string, checkAmount: string -> ValidationResult, checkDate: (string, string) -> ValidationResult)
    ensures value != "" ==> ValidateField("swiftCode", value, checkAmount, checkDate)
                            == ValidateField("correspondenceSwiftCode", value, checkAmount, checkDate)
                            == ValidateSWIFT(value)
    ensures ValidateField("swiftCode", "", checkAmount, checkDate) == Invalid("SWIFT code is required")
    ensures ValidateField("correspondenceSwiftCode", "", checkAmount, checkDate) == Ok
  {
    assert RequiredFields[9] == "swiftCode";
  }

  // ---------------------------------------------------------------- formatIBAN

  /** `s.replace(/(.{4})/g, '$1 ')`: a space after every complete block of four. After whitespace removal every
      character matches `.`, since the line terminators are whitespace. */
  function Group4(s: string): string
    decreases |s|
  {
    if |s| >= 4 then s[..4] + " " + Group4(s[4..]) else s
  }

  /** The blocks of four, the last possibly shorter. */
  function Chunks(s: string): (parts: seq<string>)
    ensures forall i :: 0 <= i < |parts| ==> 1 <= |parts[i]| <= 4
    ensures forall i :: 0 <= i < |parts| - 1 ==> |parts[i]| == 4
    ensures s == [] <==> parts == []
    decreases |s|
  {
    if |s| <= 4 then (if s == [] then [] else [s]) else [s[..4]] + Chunks(s[4..])
  }

  /** `formatIBAN`. */
  function FormatIBAN(iban: string): string {
    if iban == "" then "" else Trim(Group4(Clean(iban)))
  }

  /** The blocks, separated by single spaces. */
  function Grouped(s: string): string {
    Join(Chunks(s), " ")
  }

  /** The regular-expression form is the joined blocks, plus one trailing space when the last block is full. */
  lemma {:induction false} Group4IsGrouped(s: string)
    ensures Group4(s) == Grouped(s) + (if s != [] && |s| % 4 == 0 then " " else "")
    decreases |s|
  {
    if |s| > 4 {
      Group4IsGrouped(s[4..]);
      assert Chunks(s) == [s[..4]] + Chunks(s[4..]);
      assert Grouped(s) == s[..4] + " " + Grouped(s[4..]);
    } else if |s| == 4 {
      assert s[4..] == [];
      assert Group4(s) == s + " ";
    }
  }

  /** The joined blocks begin with the first character and end with the last, and hold the input once the
      separating spaces are removed. */
  lemma {:induction false} GroupedFacts(s: string)
    requires forall i :: 0 <= i < |s| ==> !IsSpace(s[i])
    ensures s != [] ==> |Grouped(s)| > 0 && Grouped(s)[0] == s[0] && Grouped(s)[|Grouped(s)| - 1] == s[|s| - 1]
    ensures s == [] ==> Grouped(s) == []
    ensures StripSpaces(Grouped(s)) == s
    decreases |s|
  {
    if |s| > 4 {
      var rest := s[4..];
      GroupedFacts(rest);
      assert Chunks(s) == [s[..4]] + Chunks(rest);
      assert Grouped(s) == s[..4] + " " + Grouped(rest);
      StripSpacesAppend(s[..4] + " ", Grouped(rest));
      StripSpacesAppend(s[..4], " ");
      StripSpacesNoop(s[..4]);
      assert StripSpaces(" ") == [];
      assert s == s[..4] + rest;
    } else if s != [] {
      StripSpacesNoop(s);
    }
  }

  /** Trimming leaves a string that does not start or end with whitespace as it is, and also removes one
      trailing space added to it. */
  lemma TrimTight(j: string)
    requires j != [] && !IsSpace(j[0]) && !IsSpace(j[|j| - 1])
    ensures Trim(j) == j && Trim(j + " ") == j
  {
    assert TrimStart(j) == j;
    assert TrimStart(j + " ") == j + " ";
    assert (j + " ")[..|j|] == j;
    assert TrimEnd(j + " ") == TrimEnd(j);
  }

  /** `formatIBAN` is the cleaned input in blocks of four separated by single spaces. */
  lemma FormatIBANIsGrouped(iban: string)
    ensures FormatIBAN(iban) == Grouped(if iban == "" then "" else Clean(iban))
  {
    if iban == "" {
      assert Grouped("") == "";
    } else {
      var c := Clean(iban);
      assert FormatIBAN(iban) == Trim(Group4(c));
      Group4IsGrouped(c);
      GroupedFacts(c);
      if c == [] {
        assert Group4(c) == [];
      } else {
        var j := Grouped(c);
        TrimTight(j);
        if |c| % 4 == 0 {
          assert Group4(c) == j + " ";
        } else {
          assert Group4(c) == j;
        }
      }
    }
  }

  /** Removing the spaces of the formatted IBAN gives the cleaned input. */
  lemma FormatIBANStripsBack(iban: string)
    ensures StripSpaces(FormatIBAN(iban)) == if iban == "" then "" else Clean(iban)
  {
    FormatIBANIsGrouped(iban);
    if iban != "" {
      GroupedFacts(Clean(iban));
    }
  }

  /** Formatting a formatted IBAN changes nothing. */
  lemma FormatIBANIdempotent(iban: string)
    ensures FormatIBAN(FormatIBAN(iban)) == FormatIBAN(iban)
  {
    var f := FormatIBAN(iban);
    FormatIBANIsGrouped(iban);
    FormatIBANIsGrouped(f);
    if iban != "" {
      var c := Clean(iban);
      GroupedFacts(c);
      if f != "" {
        assert Clean(f) == ToUpper(c);
        CleanIsUpper(iban);
      }
    }
  }
}
