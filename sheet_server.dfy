/**
  The pure part of the `/api/submit` request handler: choosing the sheet a
  registration goes to, rejecting unknown business networks, and flattening
  the request body into the 38-cell row appended to that sheet, aligned with
  the 38-cell header row written when the sheet is first created.
*/
module SheetServer {
  import opened Wrappers
  import Js
  import Submission
  import NetworkRegistration

  // ------------------------------------------------------------ sheet names

  /** `BUSINESS_NETWORK_SHEETS`: the network a member picks, and the sheet its rows go to. */
  function NetworkSheet(name: string): Option<string> {
    match name
    case "Food Network" => Some("Food Network")
    case "Ai & Inno Network" => Some("Ai&Innovation")
    case "Health Care" => Some("Health Care")
    case "Retail&WholeSale" => Some("Retail&WholeSale")
    case "Inno BCG & Agriculture Innovation" => Some("Inno BCG & Agriculture Innovation")
    case "Logistic" => Some("Logistic")
    case "Real Estate" => Some("Real Estate")
    case "Education" => Some("Education")
    case "Hotel, Tourism & Hospitality" => Some("Hotel, Tourism & Hospitality")
    case _ => None
  }

  /** The table's own keys. */
  predicate IsNetwork(name: string) {
    NetworkSheet(name).Some?
  }

  /** Every network but one is stored on a sheet of its own name, and no sheet name is empty. */
  lemma SheetNames(name: string)
    ensures NetworkSheet("Ai & Inno Network") == Some("Ai&Innovation")
    ensures IsNetwork(name) && name != "Ai & Inno Network" ==> NetworkSheet(name) == Some(name)
    ensures IsNetwork(name) ==> NetworkSheet(name).value != "" && name != ""
  {
  }

  /**
    The sheet a request body's `businessNetwork` value selects: the value must
    be truthy and, converted to a property key, be one of the table's own keys.
  */
  function SheetNameFor(v: Js.Value): (r: Option<string>)
    ensures r.Some? <==> IsNetwork(Js.ToKey(v))
    ensures r.Some? ==> r == NetworkSheet(Js.ToKey(v))
  {
    FalsyKeysUnknown(v);
    if Js.Truthy(v) && IsNetwork(Js.ToKey(v)) then NetworkSheet(Js.ToKey(v)) else None
  }

  /** No falsy value names a network, so the `!businessNetwork` test never decides alone. */
  lemma FalsyKeysUnknown(v: Js.Value)
    ensures !Js.Truthy(v) ==> !IsNetwork(Js.ToKey(v))
  {
    if !Js.Truthy(v) {
      match v
      case Undefined =>
      case Null =>
      case Bool(b) =>
      case Num(n) => assert Js.ToKey(v) == "0";
      case Str(s) =>
    }
  }

  /** `const range = \`${sheetName}!A1\``. */
  function Range(sheetName: string): (r: string)
    ensures |r| == |sheetName| + 3 && r[..|sheetName|] == sheetName && r[|sheetName|..] == "!A1"
  {
    sheetName + "!A1"
  }

  // ------------------------------------------------------- the lookup as written

  /**
    The names every plain JavaScript object inherits from `Object.prototype`.
    Each is a function or, for `__proto__`, an object, so each is truthy.
  */
  const InheritedNames: set<string> := {
    "constructor", "toString", "toLocaleString", "valueOf", "hasOwnProperty",
    "isPrototypeOf", "propertyIsEnumerable", "__proto__", "__defineGetter__",
    "__defineSetter__", "__lookupGetter__", "__lookupSetter__"
  }

  /**
    The guard as written: `BUSINESS_NETWORK_SHEETS[businessNetwork]` is an
    ordinary property read, so it finds inherited names as well as the table's own.
  */
  predicate AcceptedAsWritten(v: Js.Value) {
    Js.Truthy(v) && (IsNetwork(Js.ToKey(v)) || Js.ToKey(v) in InheritedNames)
  }

  /** On every value the corrected lookup accepts, the guard as written accepts too. */
  lemma AsWrittenAcceptsEveryNetwork(v: Js.Value)
    ensures SheetNameFor(v).Some? ==> AcceptedAsWritten(v)
  {
    FalsyKeysUnknown(v);
  }

  /** A body naming the network `"constructor"` passes the guard as written, though no such network exists. */
  lemma ConstructorPassesGuard()
    ensures AcceptedAsWritten(Js.Str("constructor"))
    ensures SheetNameFor(Js.Str("constructor")).None?
  {
    assert "constructor" in InheritedNames;
  }

  // ------------------------------------------------------------- the row

  const Accepted := "ยอมรับ"
  const Rejected := "ไม่ยอมรับ"

  /** `x ? 'ยอมรับ' : 'ไม่ยอมรับ'`. */
  function ConsentWord(v: Js.Value): (r: string)
    ensures r == Accepted || r == Rejected
    ensures r == Accepted <==> Js.Truthy(v)
  {
    if Js.Truthy(v) then Accepted else Rejected
  }

  /** `Array.isArray(x) ? x.join(', ') : (x || '')`. */
  function Joined(v: Js.Value): (r: Js.Value)
    ensures v.Arr? ==> r == Js.Str(Js.Join(v.items, ", "))
    ensures !v.Arr? && Js.Truthy(v) ==> r == v
    ensures !Js.Truthy(v) ==> r == Js.Str("")
  {
    if v.Arr? then Js.Str(Js.Join(v.items, ", ")) else Js.Or(v, Js.Str(""))
  }

  /** `x || ''`. */
  function OrEmpty(v: Js.Value): (r: Js.Value)
    ensures Js.Truthy(v) ==> r == v
    ensures !Js.Truthy(v) ==> r == Js.Str("")
  {
    Js.Or(v, Js.Str(""))
  }

  /** The value destructured from the request body under `k`. */
  function Field(body: Submission.Body, k: Submission.Key): Js.Value {
    Submission.Get(Some(body), k)
  }

  /**
    `allData`: the row appended for one registration. Entry `i` of the array
    literal is the cell that column `i` of `Layout` describes.
  */
  function AllData(body: Submission.Body, timestamp: string): (r: seq<Js.Value>)
    ensures |r| == 38
  {
    seq(38, i requires 0 <= i < 38 => Cell(LayoutAt(i), body, timestamp))
  }

  /** `headers`: the row written first into a newly created sheet. */
  const Headers: seq<string> := [
    "วันที่/เวลา", "Business Network", "ยินยอม PDPA", "ประเภทสมาชิก", "YEC จังหวัด",
    "TCC Card Image", "Profile Image", "ชื่อ (ไทย)", "นามสกุล (ไทย)", "ชื่อ (อังกฤษ)",
    "นามสกุล (อังกฤษ)", "ชื่อเล่น", "เบอร์โทรศัพท์", "อีเมล", "Line ID",
    "จังหวัด", "อำเภอ/เขต", "ตำบล/แขวง", "รหัสไปรษณีย์", "ชื่อธุรกิจ",
    "ประเภทธุรกิจ", "ขนาดธุรกิจ", "คำอธิบายธุรกิจ", "เว็บไซต์ธุรกิจ", "เบอร์โทรธุรกิจ",
    "อีเมลธุรกิจ", "ประเภทธุรกิจเกษตร", "ปัญหาที่พบ", "ประโยชน์ที่ต้องการ", "ประโยชน์อื่นๆ",
    "กิจกรรมที่สนใจ", "ความสนใจทีมงาน", "ความคาดหวัง", "ความคาดหวังอื่นๆ", "ตลาดต่างประเทศ",
    "ตลาดต่างประเทศอื่นๆ", "ยอมรับเงื่อนไข", "ยินยอมประมวลผลข้อมูล"
  ]

  // ------------------------------------------------- the intended column layout

  /** Where a cell's value comes from, and how it is converted. */
  datatype Source =
    | Timestamp
    | Raw(key: Submission.Key)       // copied as sent
    | Consent(key: Submission.Key)   // truthiness as an accept/reject word
    | Scalar(key: Submission.Key)    // `x || ''`
    | Multi(key: Submission.Key)     // arrays joined with ", ", else `x || ''`

  /** The layout the data row and the header row are both written to follow, column by column. */
  const Layout: seq<Source> := seq(38, i requires 0 <= i < 38 => LayoutAt(i))

  function LayoutAt(i: nat): Source
    requires i < 38
  {
    match i
    case 0 => Timestamp
    case 1 => Raw(Submission.BusinessNetwork)
    case 2 => Consent(Submission.PdpaAccepted)
    case 3 => Scalar(Submission.MembershipType)
    case 4 => Scalar(Submission.YecProvince)
    case 5 => Scalar(Submission.TccCardImage)
    case 6 => Scalar(Submission.ProfileImage)
    case 7 => Scalar(Submission.ThaiFirstName)
    case 8 => Scalar(Submission.ThaiLastName)
    case 9 => Scalar(Submission.EnglishFirstName)
    case 10 => Scalar(Submission.EnglishLastName)
    case 11 => Scalar(Submission.Nickname)
    case 12 => Scalar(Submission.Phone)
    case 13 => Scalar(Submission.Email)
    case 14 => Scalar(Submission.LineId)
    case 15 => Scalar(Submission.AddressProvince)
    case 16 => Scalar(Submission.AddressDistrict)
    case 17 => Scalar(Submission.AddressSubDistrict)
    case 18 => Scalar(Submission.PostalCode)
    case 19 => Scalar(Submission.BusinessName)
    case 20 => Scalar(Submission.BusinessType)
    case 21 => Scalar(Submission.BusinessSize)
    case 22 => Scalar(Submission.BusinessDescription)
    case 23 => Scalar(Submission.BusinessWebsite)
    case 24 => Scalar(Submission.BusinessPhone)
    case 25 => Scalar(Submission.BusinessEmail)
    case 26 => Multi(Submission.AgricultureBusinessTypes)
    case 27 => Scalar(Submission.PainPoints)
    case 28 => Multi(Submission.GroupBenefits)
    case 29 => Scalar(Submission.OtherGroupBenefits)
    case 30 => Multi(Submission.InterestedActivities)
    case 31 => Scalar(Submission.WorkingTeamInterest)
    case 32 => Multi(Submission.Expectations)
    case 33 => Scalar(Submission.OtherExpectations)
    case 34 => Multi(Submission.InternationalMarkets)
    case 35 => Scalar(Submission.OtherInternationalMarkets)
    case 36 => Consent(Submission.TermsAccepted)
    case _ => Consent(Submission.DataProcessingConsent)
  }

  /** The header naming each kind of cell. */
  function Label(s: Source): string {
    match s
    case Timestamp => "วันที่/เวลา"
    case _ => KeyLabel(s.key)
  }

  function KeyLabel(k: Submission.Key): string {
    match k
    case BusinessNetwork => "Business Network"
    case PdpaAccepted => "ยินยอม PDPA"
    case MembershipType => "ประเภทสมาชิก"
    case YecProvince => "YEC จังหวัด"
    case TccCardImage => "TCC Card Image"
    case ProfileImage => "Profile Image"
    case ThaiFirstName => "ชื่อ (ไทย)"
    case ThaiLastName => "นามสกุล (ไทย)"
    case EnglishFirstName => "ชื่อ (อังกฤษ)"
    case EnglishLastName => "นามสกุล (อังกฤษ)"
    case Nickname => "ชื่อเล่น"
    case Phone => "เบอร์โทรศัพท์"
    case Email => "อีเมล"
    case LineId => "Line ID"
    case AddressProvince => "จังหวัด"
    case AddressDistrict => "อำเภอ/เขต"
    case AddressSubDistrict => "ตำบล/แขวง"
    case PostalCode => "รหัสไปรษณีย์"
    case BusinessName => "ชื่อธุรกิจ"
    case BusinessType => "ประเภทธุรกิจ"
    case BusinessSize => "ขนาดธุรกิจ"
    case BusinessDescription => "คำอธิบายธุรกิจ"
    case BusinessWebsite => "เว็บไซต์ธุรกิจ"
    case BusinessPhone => "เบอร์โทรธุรกิจ"
    case BusinessEmail => "อีเมลธุรกิจ"
    case AgricultureBusinessTypes => "ประเภทธุรกิจเกษตร"
    case PainPoints => "ปัญหาที่พบ"
    case GroupBenefits => "ประโยชน์ที่ต้องการ"
    case OtherGroupBenefits => "ประโยชน์อื่นๆ"
    case InterestedActivities => "กิจกรรมที่สนใจ"
    case WorkingTeamInterest => "ความสนใจทีมงาน"
    case Expectations => "ความคาดหวัง"
    case OtherExpectations => "ความคาดหวังอื่นๆ"
    case InternationalMarkets => "ตลาดต่างประเทศ"
    case OtherInternationalMarkets => "ตลาดต่างประเทศอื่นๆ"
    case TermsAccepted => "ยอมรับเงื่อนไข"
    case DataProcessingConsent => "ยินยอมประมวลผลข้อมูล"
  }

  /** The cell a source yields for one request. */
  function Cell(s: Source, body: Submission.Body, timestamp: string): Js.Value {
    match s
    case Timestamp => Js.Str(timestamp)
    case Raw(k) => Field(body, k)
    case Consent(k) => Js.Str(ConsentWord(Field(body, k)))
    case Scalar(k) => OrEmpty(Field(body, k))
    case Multi(k) => Joined(Field(body, k))
  }

  /** The body key a source reads, if any. */
  function KeyOf(s: Source): Option<Submission.Key> {
    if s.Timestamp? then None else Some(s.key)
  }

  /** The fields sent as lists by the registration wizard. */
  predicate IsListKey(k: Submission.Key) {
    k == Submission.AgricultureBusinessTypes || k == Submission.GroupBenefits
    || k == Submission.InterestedActivities || k == Submission.Expectations
    || k == Submission.InternationalMarkets
  }

  /** The three yes/no consents. */
  predicate IsConsentKey(k: Submission.Key) {
    k == Submission.PdpaAccepted || k == Submission.TermsAccepted || k == Submission.DataProcessingConsent
  }

  /** The column each body key is written to. */
  function ColumnOf(k: Submission.Key): (i: nat)
    ensures 1 <= i < 38
  {
    match k
    case BusinessNetwork => 1
    case PdpaAccepted => 2
    case MembershipType => 3
    case YecProvince => 4
    case TccCardImage => 5
    case ProfileImage => 6
    case ThaiFirstName => 7
    case ThaiLastName => 8
    case EnglishFirstName => 9
    case EnglishLastName => 10
    case Nickname => 11
    case Phone => 12
    case Email => 13
    case LineId => 14
    case AddressProvince => 15
    case AddressDistrict => 16
    case AddressSubDistrict => 17
    case PostalCode => 18
    case BusinessName => 19
    case BusinessType => 20
    case BusinessSize => 21
    case BusinessDescription => 22
    case BusinessWebsite => 23
    case BusinessPhone => 24
    case BusinessEmail => 25
    case AgricultureBusinessTypes => 26
    case PainPoints => 27
    case GroupBenefits => 28
    case OtherGroupBenefits => 29
    case InterestedActivities => 30
    case WorkingTeamInterest => 31
    case Expectations => 32
    case OtherExpectations => 33
    case InternationalMarkets => 34
    case OtherInternationalMarkets => 35
    case TermsAccepted => 36
    case DataProcessingConsent => 37
  }

  /** Column `i` of the header row names column `i` of the layout. */
  lemma HeaderColumn(i: int)
    requires 0 <= i < 38
    ensures |Headers| == |Layout| == 38
    ensures Headers[i] == Label(Layout[i])
    ensures i == 0 <==> Layout[i] == Timestamp
    ensures i != 0 ==> ColumnOf(Layout[i].key) == i
    ensures Layout[i].Raw? <==> i == 1
    ensures Layout[i].Consent? <==> i == 2 || i == 36 || i == 37
    ensures Layout[i].Multi? <==> i == 26 || i == 28 || i == 30 || i == 32 || i == 34
  {
    if i < 3 {
      HeaderColumnsA(i);
    } else if i < 6 {
      HeaderColumnsB(i);
    } else if i < 9 {
      HeaderColumnsC(i);
    } else if i < 12 {
      HeaderColumnsD(i);
    } else if i < 15 {
      HeaderColumnsE(i);
    } else if i < 18 {
      HeaderColumnsF(i);
    } else if i < 21 {
      HeaderColumnsG(i);
    } else if i < 24 {
      HeaderColumnsH(i);
    } else if i < 27 {
      HeaderColumnsI(i);
    } else if i < 30 {
      HeaderColumnsJ(i);
    } else if i < 33 {
      HeaderColumnsK(i);
    } else if i < 36 {
      HeaderColumnsL(i);
    } else {
      HeaderColumnsM(i);
    }
  }

  lemma HeaderColumnsA(i: int)
    requires 0 <= i < 3
    ensures Headers[i] == Label(Layout[i])
    ensures i == 0 <==> Layout[i] == Timestamp
    ensures i != 0 ==> ColumnOf(Layout[i].key) == i
    ensures Layout[i].Raw? <==> i == 1
    ensures Layout[i].Consent? <==> i == 2 || i == 36 || i == 37
    ensures Layout[i].Multi? <==> i == 26 || i == 28 || i == 30 || i == 32 || i == 34
  {
    match i
    case 0 =>
    case 1 =>
    case 2 =>
    case _ => assert false;
  }

  lemma HeaderColumnsB(i: int)
    requires 3 <= i < 6
    ensures Headers[i] == Label(Layout[i])
    ensures i == 0 <==> Layout[i] == Timestamp
    ensures i != 0 ==> ColumnOf(Layout[i].key) == i
    ensures Layout[i].Raw? <==> i == 1
    ensures Layout[i].Consent? <==> i == 2 || i == 36 || i == 37
    ensures Layout[i].Multi? <==> i == 26 || i == 28 || i == 30 || i == 32 || i == 34
  {
    match i
    case 3 =>
    case 4 =>
    case 5 =>
    case _ => assert false;
  }

  lemma HeaderColumnsC(i: int)
    requires 6 <= i < 9
    ensures Headers[i] == Label(Layout[i])
    ensures i == 0 <==> Layout[i] == Timestamp
    ensures i != 0 ==> ColumnOf(Layout[i].key) == i
    ensures Layout[i].Raw? <==> i == 1
    ensures Layout[i].Consent? <==> i == 2 || i == 36 || i == 37
    ensures Layout[i].Multi? <==> i == 26 || i == 28 || i == 30 || i == 32 || i == 34
  {
    match i
    case 6 =>
    case 7 =>
    case 8 =>
    case _ => assert false;
  }

  lemma HeaderColumnsD(i: int)
    requires 9 <= i < 12
    ensures Headers[i] == Label(Layout[i])
    ensures i == 0 <==> Layout[i] == Timestamp
    ensures i != 0 ==> ColumnOf(Layout[i].key) == i
    ensures Layout[i].Raw? <==> i == 1
    ensures Layout[i].Consent? <==> i == 2 || i == 36 || i == 37
    ensures Layout[i].Multi? <==> i == 26 || i == 28 || i == 30 || i == 32 || i == 34
  {
    match i
    case 9 =>
    case 10 =>
    case 11 =>
    case _ => assert false;
  }

  lemma HeaderColumnsE(i: int)
    requires 12 <= i < 15
    ensures Headers[i] == Label(Layout[i])
    ensures i == 0 <==> Layout[i] == Timestamp
    ensures i != 0 ==> ColumnOf(Layout[i].key) == i
    ensures Layout[i].Raw? <==> i == 1
    ensures Layout[i].Consent? <==> i == 2 || i == 36 || i == 37
    ensures Layout[i].Multi? <==> i == 26 || i == 28 || i == 30 || i == 32 || i == 34
  {
    match i
    case 12 =>
    case 13 =>
    case 14 =>
    case _ => assert false;
  }

  lemma HeaderColumnsF(i: int)
    requires 15 <= i < 18
    ensures Headers[i] == Label(Layout[i])
    ensures i == 0 <==> Layout[i] == Timestamp
    ensures i != 0 ==> ColumnOf(Layout[i].key) == i
    ensures Layout[i].Raw? <==> i == 1
    ensures Layout[i].Consent? <==> i == 2 || i == 36 || i == 37
    ensures Layout[i].Multi? <==> i == 26 || i == 28 || i == 30 || i == 32 || i == 34
  {
    match i
    case 15 =>
    case 16 =>
    case 17 =>
    case _ => assert false;
  }

  lemma HeaderColumnsG(i: int)
    requires 18 <= i < 21
    ensures Headers[i] == Label(Layout[i])
    ensures i == 0 <==> Layout[i] == Timestamp
    ensures i != 0 ==> ColumnOf(Layout[i].key) == i
    ensures Layout[i].Raw? <==> i == 1
    ensures Layout[i].Consent? <==> i == 2 || i == 36 || i == 37
    ensures Layout[i].Multi? <==> i == 26 || i == 28 || i == 30 || i == 32 || i == 34
  {
    match i
    case 18 =>
    case 19 =>
    case 20 =>
    case _ => assert false;
  }

  lemma HeaderColumnsH(i: int)
    requires 21 <= i < 24
    ensures Headers[i] == Label(Layout[i])
    ensures i == 0 <==> Layout[i] == Timestamp
    ensures i != 0 ==> ColumnOf(Layout[i].key) == i
    ensures Layout[i].Raw? <==> i == 1
    ensures Layout[i].Consent? <==> i == 2 || i == 36 || i == 37
    ensures Layout[i].Multi? <==> i == 26 || i == 28 || i == 30 || i == 32 || i == 34
  {
    match i
    case 21 =>
    case 22 =>
    case 23 =>
    case _ => assert false;
  }

  lemma HeaderColumnsI(i: int)
    requires 24 <= i < 27
    ensures Headers[i] == Label(Layout[i])
    ensures i == 0 <==> Layout[i] == Timestamp
    ensures i != 0 ==> ColumnOf(Layout[i].key) == i
    ensures Layout[i].Raw? <==> i == 1
    ensures Layout[i].Consent? <==> i == 2 || i == 36 || i == 37
    ensures Layout[i].Multi? <==> i == 26 || i == 28 || i == 30 || i == 32 || i == 34
  {
    match i
    case 24 =>
    case 25 =>
    case 26 =>
    case _ => assert false;
  }

  lemma HeaderColumnsJ(i: int)
    requires 27 <= i < 30
    ensures Headers[i] == Label(Layout[i])
    ensures i == 0 <==> Layout[i] == Timestamp
    ensures i != 0 ==> ColumnOf(Layout[i].key) == i
    ensures Layout[i].Raw? <==> i == 1
    ensures Layout[i].Consent? <==> i == 2 || i == 36 || i == 37
    ensures Layout[i].Multi? <==> i == 26 || i == 28 || i == 30 || i == 32 || i == 34
  {
    match i
    case 27 =>
    case 28 =>
    case 29 =>
    case _ => assert false;
  }

  lemma HeaderColumnsK(i: int)
    requires 30 <= i < 33
    ensures Headers[i] == Label(Layout[i])
    ensures i == 0 <==> Layout[i] == Timestamp
    ensures i != 0 ==> ColumnOf(Layout[i].key) == i
    ensures Layout[i].Raw? <==> i == 1
    ensures Layout[i].Consent? <==> i == 2 || i == 36 || i == 37
    ensures Layout[i].Multi? <==> i == 26 || i == 28 || i == 30 || i == 32 || i == 34
  {
    match i
    case 30 =>
    case 31 =>
    case 32 =>
    case _ => assert false;
  }

  lemma HeaderColumnsL(i: int)
    requires 33 <= i < 36
    ensures Headers[i] == Label(Layout[i])
    ensures i == 0 <==> Layout[i] == Timestamp
    ensures i != 0 ==> ColumnOf(Layout[i].key) == i
    ensures Layout[i].Raw? <==> i == 1
    ensures Layout[i].Consent? <==> i == 2 || i == 36 || i == 37
    ensures Layout[i].Multi? <==> i == 26 || i == 28 || i == 30 || i == 32 || i == 34
  {
    match i
    case 33 =>
    case 34 =>
    case 35 =>
    case _ => assert false;
  }

  lemma HeaderColumnsM(i: int)
    requires 36 <= i < 38
    ensures Headers[i] == Label(Layout[i])
    ensures i == 0 <==> Layout[i] == Timestamp
    ensures i != 0 ==> ColumnOf(Layout[i].key) == i
    ensures Layout[i].Raw? <==> i == 1
    ensures Layout[i].Consent? <==> i == 2 || i == 36 || i == 37
    ensures Layout[i].Multi? <==> i == 26 || i == 28 || i == 30 || i == 32 || i == 34
  {
    match i
    case 36 =>
    case 37 =>
    case _ => assert false;
  }

  /** The header row names the columns of the layout, in its order. */
  lemma HeadersFollowLayout()
    ensures |Headers| == |Layout| == 38
    ensures forall i :: 0 <= i < |Layout| ==> Headers[i] == Label(Layout[i])
  {
    forall i | 0 <= i < |Layout| ensures Headers[i] == Label(Layout[i]) {
      HeaderColumn(i);
    }
  }

  /**
    Each body key is read by exactly one column, and converted there as its
    kind demands: `businessNetwork` as sent, the consents as words, the list
    fields joined, and everything else with a `''` fallback.
  */
  lemma KeyColumn(k: Submission.Key)
    ensures KeyOf(Layout[ColumnOf(k)]) == Some(k)
    ensures Layout[ColumnOf(k)].Raw? <==> k == Submission.BusinessNetwork
    ensures Layout[ColumnOf(k)].Consent? <==> IsConsentKey(k)
    ensures Layout[ColumnOf(k)].Multi? <==> IsListKey(k)
  {
    LayoutKey(k);
    HeaderColumn(ColumnOf(k));
    ColumnKind(k);
  }

  lemma LayoutKey(k: Submission.Key)
    ensures LayoutAt(ColumnOf(k)) != Timestamp && LayoutAt(ColumnOf(k)).key == k
  {
    match k
    case BusinessNetwork =>
    case PdpaAccepted =>
    case MembershipType =>
    case YecProvince =>
    case TccCardImage =>
    case ProfileImage =>
    case ThaiFirstName =>
    case ThaiLastName =>
    case EnglishFirstName =>
    case EnglishLastName =>
    case Nickname =>
    case Phone =>
    case Email =>
    case LineId =>
    case AddressProvince =>
    case AddressDistrict =>
    case AddressSubDistrict =>
    case PostalCode =>
    case BusinessName =>
    case BusinessType =>
    case BusinessSize =>
    case BusinessDescription =>
    case BusinessWebsite =>
    case BusinessPhone =>
    case BusinessEmail =>
    case AgricultureBusinessTypes =>
    case PainPoints =>
    case GroupBenefits =>
    case OtherGroupBenefits =>
    case InterestedActivities =>
    case WorkingTeamInterest =>
    case Expectations =>
    case OtherExpectations =>
    case InternationalMarkets =>
    case OtherInternationalMarkets =>
    case TermsAccepted =>
    case DataProcessingConsent =>
  }

  lemma ColumnKind(k: Submission.Key)
    ensures ColumnOf(k) == 1 <==> k == Submission.BusinessNetwork
    ensures (var i := ColumnOf(k); i == 2 || i == 36 || i == 37) <==> IsConsentKey(k)
    ensures (var i := ColumnOf(k); i == 26 || i == 28 || i == 30 || i == 32 || i == 34) <==> IsListKey(k)
  {
  }

  /**
    The cell of each body key: `businessNetwork` as sent, the consents as words,
    the list fields joined with `', '`, every other key with a `''` fallback; so a
    key missing from the body gives `''`, or the reject word for a consent.
  */
  lemma RowCellOfKey(body: Submission.Body, timestamp: string, k: Submission.Key)
    ensures var c := AllData(body, timestamp)[ColumnOf(k)];
      && (k == Submission.BusinessNetwork ==> c == Field(body, k))
      && (IsConsentKey(k) ==> c == Js.Str(ConsentWord(Field(body, k))))
      && (IsListKey(k) ==> c == Joined(Field(body, k)))
      && (k != Submission.BusinessNetwork && !IsConsentKey(k) && !IsListKey(k) ==> c == OrEmpty(Field(body, k)))
      && (k !in body && k != Submission.BusinessNetwork ==> c == Js.Str(if IsConsentKey(k) then Rejected else ""))
  {
    KeyColumn(k);
  }

  /** Column 0 holds the timestamp; every body key is read by exactly one other column. */
  lemma LayoutCoversEachKeyOnce()
    ensures |Layout| == 38 && Layout[0] == Timestamp
    ensures forall k :: KeyOf(Layout[ColumnOf(k)]) == Some(k)
    ensures forall i, k :: 0 <= i < |Layout| && KeyOf(Layout[i]) == Some(k) ==> i == ColumnOf(k)
  {
    forall k ensures KeyOf(Layout[ColumnOf(k)]) == Some(k) {
      KeyColumn(k);
    }
    forall i, k | 0 <= i < |Layout| && KeyOf(Layout[i]) == Some(k) ensures i == ColumnOf(k) {
      HeaderColumn(i);
    }
  }

  // ------------------------------------------------------------ the handler

  const InvalidNetwork := "Invalid business network selected"

  /** What the handler does with a request body, up to the Google Sheets calls. */
  datatype Outcome =
    | BadRequest(error: string)
    | Append(sheetName: string, range: string, row: seq<Js.Value>)

  /**
    The request handler up to the append: a 400 for an unknown network, else
    the sheet, its range and the row. `timestamp` is the Bangkok-time string
    the handler takes from the clock.
  */
  function Handle(body: Submission.Body, timestamp: string): (o: Outcome)
    ensures o.BadRequest? <==> !IsNetwork(Js.ToKey(Field(body, Submission.BusinessNetwork)))
    ensures o.BadRequest? ==> o.error == InvalidNetwork
    ensures o.Append? ==> NetworkSheet(Js.ToKey(Field(body, Submission.BusinessNetwork))) == Some(o.sheetName)
    ensures o.Append? ==> o.range == o.sheetName + "!A1"
    ensures o.Append? ==> o.row == AllData(body, timestamp)
  {
    match SheetNameFor(Field(body, Submission.BusinessNetwork))
    case None => BadRequest(InvalidNetwork)
    case Some(sheetName) => Append(sheetName, Range(sheetName), AllData(body, timestamp))
  }

  /**
    An appended row is as long as the header row, starts with the timestamp,
    and holds in its second cell the `businessNetwork` value the guard accepted.
  */
  lemma AppendedRow(body: Submission.Body, timestamp: string)
    ensures var o := Handle(body, timestamp);
      o.Append? ==>
        && |o.row| == |Headers|
        && o.row[0] == Js.Str(timestamp)
        && o.row[1] == Field(body, Submission.BusinessNetwork)
        && IsNetwork(Js.ToKey(o.row[1]))
  {
    HeaderColumn(0);
    HeaderColumn(1);
  }

  // --------------------------------------------- from the wizard to the sheet

  /**
    The cells a payload built by the registration wizard gets: each business text
    answer lands as typed in its own column (`AllData` places cell i in column i).
  */
  lemma RegistrationTextCells(saved: Option<Submission.Body>, networkName: Option<string>,
                          d: NetworkRegistration.RegistrationData, timestamp: string)
    ensures var p := NetworkRegistration.SubmissionData(saved, networkName, d);
      forall f :: Cell(Layout[ColumnOf(NetworkRegistration.TextKey(f))], p, timestamp) == Js.Str(NetworkRegistration.Text(d, f))
  {
    var p := NetworkRegistration.SubmissionData(saved, networkName, d);
    NetworkRegistration.SubmissionCopiesBusinessFields(saved, networkName, d);
    forall f ensures Cell(Layout[ColumnOf(NetworkRegistration.TextKey(f))], p, timestamp) == Js.Str(NetworkRegistration.Text(d, f)) {
      TextColumn(f);
    }
  }

  /** Each list field of the wizard reaches the sheet joined with `', '`. */
  lemma RegistrationListCells(saved: Option<Submission.Body>, networkName: Option<string>,
                          d: NetworkRegistration.RegistrationData, timestamp: string)
    ensures var p := NetworkRegistration.SubmissionData(saved, networkName, d);
      forall f :: Cell(Layout[ColumnOf(NetworkRegistration.ListKey(f))], p, timestamp) == Js.Str(Js.Join(NetworkRegistration.List(d, f), ", "))
  {
    var p := NetworkRegistration.SubmissionData(saved, networkName, d);
    NetworkRegistration.SubmissionCopiesBusinessFields(saved, networkName, d);
    forall f ensures Cell(Layout[ColumnOf(NetworkRegistration.ListKey(f))], p, timestamp) == Js.Str(Js.Join(NetworkRegistration.List(d, f), ", ")) {
      ListColumn(f);
    }
  }

  /** The two consent flags of the wizard become the Thai consent words, and the PDPA
      column always reads "accepted": the payload's `x || true` is always truthy. */
  lemma RegistrationConsentCells(saved: Option<Submission.Body>, networkName: Option<string>,
                          d: NetworkRegistration.RegistrationData, timestamp: string)
    ensures var p := NetworkRegistration.SubmissionData(saved, networkName, d);
      && Cell(Layout[ColumnOf(Submission.TermsAccepted)], p, timestamp) == Js.Str(if d.termsAccepted then Accepted else Rejected)
      && Cell(Layout[ColumnOf(Submission.DataProcessingConsent)], p, timestamp) == Js.Str(if d.dataProcessingConsent then Accepted else Rejected)
      && Cell(Layout[ColumnOf(Submission.PdpaAccepted)], p, timestamp) == Js.Str(Accepted)
  {
    NetworkRegistration.SubmissionCopiesBusinessFields(saved, networkName, d);
    NetworkRegistration.PdpaAlwaysAccepted(saved, networkName, d);
    assert NetworkRegistration.FlagKey(NetworkRegistration.TermsAccepted) == Submission.TermsAccepted;
    assert NetworkRegistration.FlagKey(NetworkRegistration.DataProcessingConsent) == Submission.DataProcessingConsent;
    KeyColumn(Submission.TermsAccepted);
    KeyColumn(Submission.DataProcessingConsent);
    KeyColumn(Submission.PdpaAccepted);
  }

  /** Each business text field of the wizard has a column of its own with a `''` fallback. */
  lemma TextColumn(f: NetworkRegistration.TextField)
    ensures Layout[ColumnOf(NetworkRegistration.TextKey(f))] == Scalar(NetworkRegistration.TextKey(f))
  {
    var k := NetworkRegistration.TextKey(f);
    KeyColumn(k);
    assert k != Submission.BusinessNetwork && !IsConsentKey(k) && !IsListKey(k) by {
      match f
      case BusinessName =>
      case BusinessType =>
      case BusinessSize =>
      case BusinessDescription =>
      case BusinessWebsite =>
      case BusinessPhone =>
      case BusinessEmail =>
      case PainPoints =>
      case OtherGroupBenefits =>
      case WorkingTeamInterest =>
      case OtherExpectations =>
      case OtherInternationalMarkets =>
    }
  }

  /** Each list field of the wizard has a column of its own that joins it. */
  lemma ListColumn(f: NetworkRegistration.ListField)
    ensures Layout[ColumnOf(NetworkRegistration.ListKey(f))] == Multi(NetworkRegistration.ListKey(f))
  {
    var k := NetworkRegistration.ListKey(f);
    KeyColumn(k);
    assert IsListKey(k) by {
      match f
      case AgricultureBusinessTypes =>
      case GroupBenefits =>
      case InterestedActivities =>
      case Expectations =>
      case InternationalMarkets =>
    }
  }

  /** A wizard payload is rejected exactly when its network, as sent, is not in the table. */
  lemma RegistrationNetworkChecked(saved: Option<Submission.Body>, networkName: Option<string>,
                                   d: NetworkRegistration.RegistrationData, timestamp: string)
    requires !Js.Truthy(Submission.Get(saved, Submission.BusinessNetwork))
    ensures Handle(NetworkRegistration.SubmissionData(saved, networkName, d), timestamp).BadRequest? <==>
      (networkName.None? || !IsNetwork(networkName.value))
  {
    NetworkRegistration.BusinessNetworkFallback(saved, networkName, d);
  }
}
