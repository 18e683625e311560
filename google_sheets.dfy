/**
  The client-side Google Sheets row format: `formatDataForSheets` lays a
  submission out as 21 strings, the 19 text fields verbatim in declaration
  order followed by the two consents as "Yes"/"No", under the 21
  `SHEET_HEADERS`.
*/
module GoogleSheets {
  import opened Wrappers

  datatype FormSubmissionData = FormSubmissionData(
    timestamp: string,
    networkName: string,
    businessName: string,
    businessType: string,
    businessSize: string,
    businessDescription: string,
    businessWebsite: string,
    businessPhone: string,
    businessEmail: string,
    agricultureBusinessTypes: string,
    painPoints: string,
    groupBenefits: string,
    otherGroupBenefits: string,
    interestedActivities: string,
    workingTeamInterest: string,
    expectations: string,
    otherExpectations: string,
    internationalMarkets: string,
    otherInternationalMarkets: string,
    termsAccepted: bool,
    dataProcessingConsent: bool)

  /** The 19 string fields, in declaration order. */
  datatype TextField =
    | Timestamp | NetworkName | BusinessName | BusinessType | BusinessSize
    | BusinessDescription | BusinessWebsite | BusinessPhone | BusinessEmail
    | AgricultureBusinessTypes | PainPoints | GroupBenefits | OtherGroupBenefits
    | InterestedActivities | WorkingTeamInterest | Expectations | OtherExpectations
    | InternationalMarkets | OtherInternationalMarkets

  function Text(d: FormSubmissionData, f: TextField): string {
    match f
    case Timestamp => d.timestamp
    case NetworkName => d.networkName
    case BusinessName => d.businessName
    case BusinessType => d.businessType
    case BusinessSize => d.businessSize
    case BusinessDescription => d.businessDescription
    case BusinessWebsite => d.businessWebsite
    case BusinessPhone => d.businessPhone
    case BusinessEmail => d.businessEmail
    case AgricultureBusinessTypes => d.agricultureBusinessTypes
    case PainPoints => d.painPoints
    case GroupBenefits => d.groupBenefits
    case OtherGroupBenefits => d.otherGroupBenefits
    case InterestedActivities => d.interestedActivities
    case WorkingTeamInterest => d.workingTeamInterest
    case Expectations => d.expectations
    case OtherExpectations => d.otherExpectations
    case InternationalMarkets => d.internationalMarkets
    case OtherInternationalMarkets => d.otherInternationalMarkets
  }

  /** The position of a string field in the interface, counted from 0. */
  function Position(f: TextField): (i: nat)
    ensures i < 19
  {
    match f
    case Timestamp => 0
    case NetworkName => 1
    case BusinessName => 2
    case BusinessType => 3
    case BusinessSize => 4
    case BusinessDescription => 5
    case BusinessWebsite => 6
    case BusinessPhone => 7
    case BusinessEmail => 8
    case AgricultureBusinessTypes => 9
    case PainPoints => 10
    case GroupBenefits => 11
    case OtherGroupBenefits => 12
    case InterestedActivities => 13
    case WorkingTeamInterest => 14
    case Expectations => 15
    case OtherExpectations => 16
    case InternationalMarkets => 17
    case OtherInternationalMarkets => 18
  }

  /** The column title of each string field: its name, split into words and capitalised. */
  function Title(f: TextField): string {
    match f
    case Timestamp => "Timestamp"
    case NetworkName => "Network Name"
    case BusinessName => "Business Name"
    case BusinessType => "Business Type"
    case BusinessSize => "Business Size"
    case BusinessDescription => "Business Description"
    case BusinessWebsite => "Business Website"
    case BusinessPhone => "Business Phone"
    case BusinessEmail => "Business Email"
    case AgricultureBusinessTypes => "Agriculture Business Types"
    case PainPoints => "Pain Points"
    case GroupBenefits => "Group Benefits"
    case OtherGroupBenefits => "Other Group Benefits"
    case InterestedActivities => "Interested Activities"
    case WorkingTeamInterest => "Working Team Interest"
    case Expectations => "Expectations"
    case OtherExpectations => "Other Expectations"
    case InternationalMarkets => "International Markets"
    case OtherInternationalMarkets => "Other International Markets"
  }

  /** `b ? 'Yes' : 'No'`. */
  function YesNo(b: bool): (s: string)
    ensures s == "Yes" || s == "No"
    ensures s == "Yes" <==> b
  {
    if b then "Yes" else "No"
  }

  /** `formatDataForSheets`. */
  function FormatDataForSheets(d: FormSubmissionData): (r: seq<string>)
    ensures |r| == 21
  {
    [d.timestamp, d.networkName, d.businessName, d.businessType, d.businessSize,
     d.businessDescription, d.businessWebsite, d.businessPhone, d.businessEmail,
     d.agricultureBusinessTypes, d.painPoints, d.groupBenefits, d.otherGroupBenefits,
     d.interestedActivities, d.workingTeamInterest, d.expectations, d.otherExpectations,
     d.internationalMarkets, d.otherInternationalMarkets,
     YesNo(d.termsAccepted), YesNo(d.dataProcessingConsent)]
  }

  /** `SHEET_HEADERS`. */
  const SheetHeaders: seq<string> := [
    "Timestamp", "Network Name", "Business Name", "Business Type", "Business Size",
    "Business Description", "Business Website", "Business Phone", "Business Email",
    "Agriculture Business Types", "Pain Points", "Group Benefits", "Other Group Benefits",
    "Interested Activities", "Working Team Interest", "Expectations", "Other Expectations",
    "International Markets", "Other International Markets",
    "Terms Accepted", "Data Processing Consent"
  ]

  /**
    The row has one entry per header; each string field sits, verbatim, at its
    declaration position under its own title; the last two entries are the
    consents as "Yes"/"No" under their titles.
  */
  lemma RowMatchesHeaders(d: FormSubmissionData)
    ensures |FormatDataForSheets(d)| == |SheetHeaders| == 21
    ensures forall f :: FormatDataForSheets(d)[Position(f)] == Text(d, f)
    ensures forall f :: SheetHeaders[Position(f)] == Title(f)
    ensures FormatDataForSheets(d)[19] == YesNo(d.termsAccepted) && SheetHeaders[19] == "Terms Accepted"
    ensures FormatDataForSheets(d)[20] == YesNo(d.dataProcessingConsent) && SheetHeaders[20] == "Data Processing Consent"
  {
    var r := FormatDataForSheets(d);
    forall f ensures r[Position(f)] == Text(d, f) && SheetHeaders[Position(f)] == Title(f) {
      match f
      case Timestamp =>
      case NetworkName =>
      case BusinessName =>
      case BusinessType =>
      case BusinessSize =>
      case BusinessDescription =>
      case BusinessWebsite =>
      case BusinessPhone =>
      case BusinessEmail =>
      case AgricultureBusinessTypes =>
      case PainPoints =>
      case GroupBenefits =>
      case OtherGroupBenefits =>
      case InterestedActivities =>
      case WorkingTeamInterest =>
      case Expectations =>
      case OtherExpectations =>
      case InternationalMarkets =>
      case OtherInternationalMarkets =>
    }
  }

  /** Distinct fields occupy distinct columns. */
  lemma PositionsDistinct(f: TextField, g: TextField)
    ensures Position(f) == Position(g) ==> f == g
  {
  }

  // ------------------------------------------------------------ reading a row back

  /** The inverse of `YesNo`: anything but the two words is rejected. */
  function ParseYesNo(s: string): (r: Option<bool>)
    ensures r.Some? <==> s == "Yes" || s == "No"
    ensures r.Some? ==> YesNo(r.value) == s
  {
    if s == "Yes" then Some(true) else if s == "No" then Some(false) else None
  }

  /** Reads a sheet row back into a submission; a row of the wrong width or with other consent words is rejected. */
  function ParseRow(row: seq<string>): Option<FormSubmissionData> {
    if |row| != 21 then None
    else match (ParseYesNo(row[19]), ParseYesNo(row[20]))
      case (Some(terms), Some(consent)) =>
        Some(FormSubmissionData(row[0], row[1], row[2], row[3], row[4], row[5], row[6], row[7],
          row[8], row[9], row[10], row[11], row[12], row[13], row[14], row[15], row[16],
          row[17], row[18], terms, consent))
      case _ => None
  }

  /** Reading back a formatted row recovers the submission, so no two submissions share a row. */
  lemma ParseFormatted(d: FormSubmissionData)
    ensures ParseRow(FormatDataForSheets(d)) == Some(d)
  {
    var r := FormatDataForSheets(d);
    assert ParseYesNo(r[19]) == Some(d.termsAccepted);
    assert ParseYesNo(r[20]) == Some(d.dataProcessingConsent);
  }

  /** Every row that reads back is the format of what it reads back to. */
  lemma FormatParsed(row: seq<string>)
    requires ParseRow(row).Some?
    ensures FormatDataForSheets(ParseRow(row).value) == row
  {
    var r := FormatDataForSheets(ParseRow(row).value);
    assert |r| == |row|;
    forall i | 0 <= i < 21 ensures r[i] == row[i] {
    }
  }

  /** Formatting loses nothing: equal rows come from equal submissions. */
  lemma FormatInjective(a: FormSubmissionData, b: FormSubmissionData)
    requires FormatDataForSheets(a) == FormatDataForSheets(b)
    ensures a == b
  {
    ParseFormatted(a);
    ParseFormatted(b);
  }
}
