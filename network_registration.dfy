/**
  The six-step network registration wizard. The step counter moves by one
  within [1, 6]; each step has a validity predicate that enables its Next or
  Submit button; multi-selects toggle values in and out of string arrays; and
  on submit the business answers are merged, using JavaScript `||` fallbacks,
  with the personal data of the object stored in the browser under
  `businessNetworkFormData` (written by a page outside this model).
*/
module NetworkRegistration {
  import opened Wrappers
  import Js
  import Choices
  import Stepper
  import Submission

  const TotalSteps: int := 6

  datatype RegistrationData = RegistrationData(
    businessName: string,
    businessType: string,
    businessSize: string,
    businessDescription: string,
    businessWebsite: string,
    businessPhone: string,
    businessEmail: string,
    agricultureBusinessTypes: seq<string>,
    painPoints: string,
    groupBenefits: seq<string>,
    otherGroupBenefits: string,
    interestedActivities: seq<string>,
    workingTeamInterest: string,
    expectations: seq<string>,
    otherExpectations: string,
    internationalMarkets: seq<string>,
    otherInternationalMarkets: string,
    termsAccepted: bool,
    dataProcessingConsent: bool)

  /** The form state at mount: every text empty, every list empty, nothing accepted. */
  const EmptyRegistration: RegistrationData :=
    RegistrationData("", "", "", "", "", "", "", [], "", [], "", [], "", [], "", [], "", false, false)

  datatype TextField =
    | BusinessName | BusinessType | BusinessSize | BusinessDescription | BusinessWebsite
    | BusinessPhone | BusinessEmail | PainPoints | OtherGroupBenefits | WorkingTeamInterest
    | OtherExpectations | OtherInternationalMarkets

  datatype ListField =
    | AgricultureBusinessTypes | GroupBenefits | InterestedActivities | Expectations | InternationalMarkets

  datatype FlagField = TermsAccepted | DataProcessingConsent

  function Text(d: RegistrationData, f: TextField): string {
    match f
    case BusinessName => d.businessName
    case BusinessType => d.businessType
    case BusinessSize => d.businessSize
    case BusinessDescription => d.businessDescription
    case BusinessWebsite => d.businessWebsite
    case BusinessPhone => d.businessPhone
    case BusinessEmail => d.businessEmail
    case PainPoints => d.painPoints
    case OtherGroupBenefits => d.otherGroupBenefits
    case WorkingTeamInterest => d.workingTeamInterest
    case OtherExpectations => d.otherExpectations
    case OtherInternationalMarkets => d.otherInternationalMarkets
  }

  function List(d: RegistrationData, f: ListField): seq<string> {
    match f
    case AgricultureBusinessTypes => d.agricultureBusinessTypes
    case GroupBenefits => d.groupBenefits
    case InterestedActivities => d.interestedActivities
    case Expectations => d.expectations
    case InternationalMarkets => d.internationalMarkets
  }

  function Flag(d: RegistrationData, f: FlagField): bool {
    match f
    case TermsAccepted => d.termsAccepted
    case DataProcessingConsent => d.dataProcessingConsent
  }

  /** `{ ...prev, [field]: value }` for a text field: only that field changes. */
  function WithText(d: RegistrationData, f: TextField, v: string): (r: RegistrationData)
    ensures Text(r, f) == v
    ensures forall g :: g != f ==> Text(r, g) == Text(d, g)
    ensures forall g :: List(r, g) == List(d, g)
    ensures forall g :: Flag(r, g) == Flag(d, g)
  {
    match f
    case BusinessName => d.(businessName := v)
    case BusinessType => d.(businessType := v)
    case BusinessSize => d.(businessSize := v)
    case BusinessDescription => d.(businessDescription := v)
    case BusinessWebsite => d.(businessWebsite := v)
    case BusinessPhone => d.(businessPhone := v)
    case BusinessEmail => d.(businessEmail := v)
    case PainPoints => d.(painPoints := v)
    case OtherGroupBenefits => d.(otherGroupBenefits := v)
    case WorkingTeamInterest => d.(workingTeamInterest := v)
    case OtherExpectations => d.(otherExpectations := v)
    case OtherInternationalMarkets => d.(otherInternationalMarkets := v)
  }

  /** `{ ...prev, [field]: value }` for a multi-select field. */
  function WithList(d: RegistrationData, f: ListField, v: seq<string>): (r: RegistrationData)
    ensures List(r, f) == v
    ensures forall g :: g != f ==> List(r, g) == List(d, g)
    ensures forall g :: Text(r, g) == Text(d, g)
    ensures forall g :: Flag(r, g) == Flag(d, g)
  {
    match f
    case AgricultureBusinessTypes => d.(agricultureBusinessTypes := v)
    case GroupBenefits => d.(groupBenefits := v)
    case InterestedActivities => d.(interestedActivities := v)
    case Expectations => d.(expectations := v)
    case InternationalMarkets => d.(internationalMarkets := v)
  }

  /** `{ ...prev, [field]: checked }` for a consent checkbox. */
  function WithFlag(d: RegistrationData, f: FlagField, v: bool): (r: RegistrationData)
    ensures Flag(r, f) == v
    ensures forall g :: g != f ==> Flag(r, g) == Flag(d, g)
    ensures forall g :: Text(r, g) == Text(d, g)
    ensures forall g :: List(r, g) == List(d, g)
  {
    match f
    case TermsAccepted => d.(termsAccepted := v)
    case DataProcessingConsent => d.(dataProcessingConsent := v)
  }

  /** A record is determined by its fields, so the three accessors describe a state completely. */
  lemma {:induction false} FieldsDetermineRecord(a: RegistrationData, b: RegistrationData)
    requires forall f :: Text(a, f) == Text(b, f)
    requires forall f :: List(a, f) == List(b, f)
    requires forall f :: Flag(a, f) == Flag(b, f)
    ensures a == b
  {
    assert Text(a, BusinessName) == Text(b, BusinessName);
    assert Text(a, BusinessType) == Text(b, BusinessType);
    assert Text(a, BusinessSize) == Text(b, BusinessSize);
    assert Text(a, BusinessDescription) == Text(b, BusinessDescription);
    assert Text(a, BusinessWebsite) == Text(b, BusinessWebsite);
    assert Text(a, BusinessPhone) == Text(b, BusinessPhone);
    assert Text(a, BusinessEmail) == Text(b, BusinessEmail);
    assert Text(a, PainPoints) == Text(b, PainPoints);
    assert Text(a, OtherGroupBenefits) == Text(b, OtherGroupBenefits);
    assert Text(a, WorkingTeamInterest) == Text(b, WorkingTeamInterest);
    assert Text(a, OtherExpectations) == Text(b, OtherExpectations);
    assert Text(a, OtherInternationalMarkets) == Text(b, OtherInternationalMarkets);
    assert List(a, AgricultureBusinessTypes) == List(b, AgricultureBusinessTypes);
    assert List(a, GroupBenefits) == List(b, GroupBenefits);
    assert List(a, InterestedActivities) == List(b, InterestedActivities);
    assert List(a, Expectations) == List(b, Expectations);
    assert List(a, InternationalMarkets) == List(b, InternationalMarkets);
    assert Flag(a, TermsAccepted) == Flag(b, TermsAccepted);
    assert Flag(a, DataProcessingConsent) == Flag(b, DataProcessingConsent);
  }

  // ------------------------------------------------------------ validity

  /** `isStepValid()` for a given step, with JavaScript truthiness made explicit. */
  function StepValid(step: int, d: RegistrationData): bool {
    if step == 1 then
      d.businessName != "" && d.businessType != "" && d.businessSize != "" &&
      d.businessDescription != "" && |d.agricultureBusinessTypes| > 0
    else if step == 2 then d.painPoints != ""
    else if step == 3 then |d.groupBenefits| > 0
    else if step == 4 then |d.interestedActivities| > 0 && d.workingTeamInterest != ""
    else if step == 5 then |d.expectations| > 0
    else if step == 6 then d.termsAccepted && d.dataProcessingConsent
    else false
  }

  /** One entry of the declarative rule table: a field that must be filled, chosen or ticked. */
  datatype Requirement = Filled(t: TextField) | Chosen(l: ListField) | Ticked(f: FlagField)

  predicate Meets(d: RegistrationData, q: Requirement) {
    match q
    case Filled(t) => Text(d, t) != ""
    case Chosen(l) => |List(d, l)| > 0
    case Ticked(f) => Flag(d, f)
  }

  /** The required fields of each step; steps outside [1, 6] have none and are never valid. */
  function Requirements(step: int): seq<Requirement> {
    if step == 1 then [Filled(BusinessName), Filled(BusinessType), Filled(BusinessSize),
                       Filled(BusinessDescription), Chosen(AgricultureBusinessTypes)]
    else if step == 2 then [Filled(PainPoints)]
    else if step == 3 then [Chosen(GroupBenefits)]
    else if step == 4 then [Chosen(InterestedActivities), Filled(WorkingTeamInterest)]
    else if step == 5 then [Chosen(Expectations)]
    else if step == 6 then [Ticked(TermsAccepted), Ticked(DataProcessingConsent)]
    else []
  }

  /** A step is valid exactly when it is a step of the wizard and every rule of its table holds. */
  lemma StepValidIffRequirements(step: int, d: RegistrationData)
    ensures StepValid(step, d) <==>
      1 <= step <= TotalSteps && forall q :: q in Requirements(step) ==> Meets(d, q)
  {
    var rs := Requirements(step);
    if step == 1 {
      assert Meets(d, rs[0]) && Meets(d, rs[1]) && Meets(d, rs[2]) && Meets(d, rs[3]) && Meets(d, rs[4])
        ==> forall q :: q in rs ==> Meets(d, q);
    } else if step == 4 {
      assert Meets(d, rs[0]) && Meets(d, rs[1]) ==> forall q :: q in rs ==> Meets(d, q);
    } else if step == 6 {
      assert Meets(d, rs[0]) && Meets(d, rs[1]) ==> forall q :: q in rs ==> Meets(d, q);
    } else if 1 <= step <= TotalSteps {
      assert Meets(d, rs[0]) ==> forall q :: q in rs ==> Meets(d, q);
    }
  }

  /** Editing a field that no rule of the step mentions cannot change that step's validity. */
  lemma {:induction false} UnrelatedEditKeepsValidity(step: int, d: RegistrationData, f: TextField, v: string)
    requires Filled(f) !in Requirements(step)
    ensures StepValid(step, WithText(d, f, v)) == StepValid(step, d)
  {
    StepValidIffRequirements(step, d);
    StepValidIffRequirements(step, WithText(d, f, v));
    var d' := WithText(d, f, v);
    forall q | q in Requirements(step) ensures Meets(d', q) == Meets(d, q) {
    }
  }

  // ------------------------------------------------------------ buttons

  /** The navigation row: Previous, and either Next or Submit, each possibly disabled. */
  datatype Controls = Controls(previousDisabled: bool, primary: Stepper.Primary, primaryDisabled: bool)

  function ControlsAt(step: int, d: RegistrationData): (c: Controls)
    ensures c.previousDisabled <==> step == 1
    ensures c.primary == Stepper.NextButton <==> step < TotalSteps
    ensures c.primaryDisabled <==> !StepValid(step, d)
  {
    Controls(step == 1, if step < TotalSteps then Stepper.NextButton else Stepper.SubmitButton, !StepValid(step, d))
  }

  // ------------------------------------------------------------ submission

  /** `businessNetworkFormData?.key || fallback`. */
  function SavedOr(saved: Option<Submission.Body>, key: Submission.Key, fallback: Js.Value): Js.Value {
    Js.Or(Submission.Get(saved, key), fallback)
  }

  /** The JSON key each business field is sent under. */
  function TextKey(f: TextField): Submission.Key {
    match f
    case BusinessName => Submission.BusinessName
    case BusinessType => Submission.BusinessType
    case BusinessSize => Submission.BusinessSize
    case BusinessDescription => Submission.BusinessDescription
    case BusinessWebsite => Submission.BusinessWebsite
    case BusinessPhone => Submission.BusinessPhone
    case BusinessEmail => Submission.BusinessEmail
    case PainPoints => Submission.PainPoints
    case OtherGroupBenefits => Submission.OtherGroupBenefits
    case WorkingTeamInterest => Submission.WorkingTeamInterest
    case OtherExpectations => Submission.OtherExpectations
    case OtherInternationalMarkets => Submission.OtherInternationalMarkets
  }

  function ListKey(f: ListField): Submission.Key {
    match f
    case AgricultureBusinessTypes => Submission.AgricultureBusinessTypes
    case GroupBenefits => Submission.GroupBenefits
    case InterestedActivities => Submission.InterestedActivities
    case Expectations => Submission.Expectations
    case InternationalMarkets => Submission.InternationalMarkets
  }

  function FlagKey(f: FlagField): Submission.Key {
    match f
    case TermsAccepted => Submission.TermsAccepted
    case DataProcessingConsent => Submission.DataProcessingConsent
  }

  /** The keys taken from the saved `businessNetworkFormData` object and sent with a `|| ''` fallback. */
  const PersonalKeys: set<Submission.Key> := {
    Submission.YecProvince, Submission.ThaiFirstName, Submission.ThaiLastName,
    Submission.EnglishFirstName, Submission.EnglishLastName, Submission.Nickname,
    Submission.Phone, Submission.Email, Submission.LineId, Submission.AddressProvince,
    Submission.AddressDistrict, Submission.AddressSubDistrict, Submission.PostalCode
  }

  /** The value `handleSubmit` puts under each key of `submissionData`. */
  function SubmissionValue(saved: Option<Submission.Body>, networkName: Option<string>,
                           d: RegistrationData, k: Submission.Key): Js.Value
  {
    match k
    case PdpaAccepted => SavedOr(saved, Submission.PdpaAccepted, Js.Bool(true))
    case MembershipType => SavedOr(saved, Submission.MembershipType, Js.Str("yec"))
    case YecProvince => SavedOr(saved, Submission.YecProvince, Js.Str(""))
    case TccCardImage => SavedOr(saved, Submission.TccCardImage, Js.Null)
    case ProfileImage => SavedOr(saved, Submission.ProfileImage, Js.Null)
    case BusinessNetwork => SavedOr(saved, Submission.BusinessNetwork, Js.Or(Js.OfOption(networkName), Js.Str("")))
    case ThaiFirstName => SavedOr(saved, Submission.ThaiFirstName, Js.Str(""))
    case ThaiLastName => SavedOr(saved, Submission.ThaiLastName, Js.Str(""))
    case EnglishFirstName => SavedOr(saved, Submission.EnglishFirstName, Js.Str(""))
    case EnglishLastName => SavedOr(saved, Submission.EnglishLastName, Js.Str(""))
    case Nickname => SavedOr(saved, Submission.Nickname, Js.Str(""))
    case Phone => SavedOr(saved, Submission.Phone, Js.Str(""))
    case Email => SavedOr(saved, Submission.Email, Js.Str(""))
    case LineId => SavedOr(saved, Submission.LineId, Js.Str(""))
    case AddressProvince => SavedOr(saved, Submission.AddressProvince, Js.Str(""))
    case AddressDistrict => SavedOr(saved, Submission.AddressDistrict, Js.Str(""))
    case AddressSubDistrict => SavedOr(saved, Submission.AddressSubDistrict, Js.Str(""))
    case PostalCode => SavedOr(saved, Submission.PostalCode, Js.Str(""))
    case BusinessName => Js.Str(d.businessName)
    case BusinessType => Js.Str(d.businessType)
    case BusinessSize => Js.Str(d.businessSize)
    case BusinessDescription => Js.Str(d.businessDescription)
    case BusinessWebsite => Js.Str(d.businessWebsite)
    case BusinessPhone => Js.Str(d.businessPhone)
    case BusinessEmail => Js.Str(d.businessEmail)
    case AgricultureBusinessTypes => Js.Arr(d.agricultureBusinessTypes)
    case PainPoints => Js.Str(d.painPoints)
    case GroupBenefits => Js.Arr(d.groupBenefits)
    case OtherGroupBenefits => Js.Str(d.otherGroupBenefits)
    case InterestedActivities => Js.Arr(d.interestedActivities)
    case WorkingTeamInterest => Js.Str(d.workingTeamInterest)
    case Expectations => Js.Arr(d.expectations)
    case OtherExpectations => Js.Str(d.otherExpectations)
    case InternationalMarkets => Js.Arr(d.internationalMarkets)
    case OtherInternationalMarkets => Js.Str(d.otherInternationalMarkets)
    case TermsAccepted => Js.Bool(d.termsAccepted)
    case DataProcessingConsent => Js.Bool(d.dataProcessingConsent)
  }

  /** The `submissionData` object built by `handleSubmit`, as the JSON object it is sent as. */
  function SubmissionData(saved: Option<Submission.Body>, networkName: Option<string>,
                          d: RegistrationData): Submission.Body
  {
    map k | k in Submission.AllKeys :: SubmissionValue(saved, networkName, d, k)
  }

  /** The payload has every key, each holding the value listed for it. */
  lemma SubmissionLookup(saved: Option<Submission.Body>, networkName: Option<string>, d: RegistrationData)
    ensures var p := SubmissionData(saved, networkName, d);
      forall k :: k in p && p[k] == SubmissionValue(saved, networkName, d, k)
  {
    Submission.AllKeysComplete();
  }

  /** The business answers are sent verbatim, each under its own key. */
  lemma SubmissionCopiesBusinessFields(saved: Option<Submission.Body>, networkName: Option<string>,
                                       d: RegistrationData)
    ensures var p := SubmissionData(saved, networkName, d);
      && (forall f :: TextKey(f) in p && p[TextKey(f)] == Js.Str(Text(d, f)))
      && (forall f :: ListKey(f) in p && p[ListKey(f)] == Js.Arr(List(d, f)))
      && (forall f :: FlagKey(f) in p && p[FlagKey(f)] == Js.Bool(Flag(d, f)))
  {
    SubmissionLookup(saved, networkName, d);
    forall f ensures SubmissionValue(saved, networkName, d, TextKey(f)) == Js.Str(Text(d, f)) {
      TextValue(saved, networkName, d, f);
    }
    forall f ensures SubmissionValue(saved, networkName, d, ListKey(f)) == Js.Arr(List(d, f)) {
      ListValue(saved, networkName, d, f);
    }
    forall f ensures SubmissionValue(saved, networkName, d, FlagKey(f)) == Js.Bool(Flag(d, f)) {
      match f
      case TermsAccepted =>
      case DataProcessingConsent =>
    }
  }

  lemma TextValue(saved: Option<Submission.Body>, networkName: Option<string>, d: RegistrationData,
                  f: TextField)
    ensures SubmissionValue(saved, networkName, d, TextKey(f)) == Js.Str(Text(d, f))
  {
    match f
    case BusinessName =>
    case BusinessType =>
    case BusinessSize =>
    case BusinessDescription =>
    case BusinessWebsite =>
    case BusinessPhone =>
    case BusinessEmail =>
    case PainPoints =>
    case OtherGroupBenefits =>
    case WorkingTeamInterest =>
    case OtherExpectations =>
    case OtherInternationalMarkets =>
  }

  lemma ListValue(saved: Option<Submission.Body>, networkName: Option<string>, d: RegistrationData,
                  f: ListField)
    ensures SubmissionValue(saved, networkName, d, ListKey(f)) == Js.Arr(List(d, f))
  {
    match f
    case AgricultureBusinessTypes =>
    case GroupBenefits =>
    case InterestedActivities =>
    case Expectations =>
    case InternationalMarkets =>
  }

  /**
    `x || true` is always truthy: `pdpaAccepted` is `true` unless the saved value
    is itself a truthy non-boolean, which is sent as it is.
  */
  lemma PdpaAlwaysAccepted(saved: Option<Submission.Body>, networkName: Option<string>,
                           d: RegistrationData)
    ensures var p := SubmissionData(saved, networkName, d);
      && Submission.PdpaAccepted in p && Js.Truthy(p[Submission.PdpaAccepted])
      && ((Submission.Get(saved, Submission.PdpaAccepted).Bool? || !Js.Truthy(Submission.Get(saved, Submission.PdpaAccepted))) ==>
            p[Submission.PdpaAccepted] == Js.Bool(true))
  {
    SubmissionLookup(saved, networkName, d);
  }

  /** `membershipType` falls back to `'yec'`. */
  lemma MembershipTypeFallback(saved: Option<Submission.Body>, networkName: Option<string>,
                               d: RegistrationData)
    ensures var p := SubmissionData(saved, networkName, d);
      && Submission.MembershipType in p
      && p[Submission.MembershipType] == (if Js.Truthy(Submission.Get(saved, Submission.MembershipType))
                                 then Submission.Get(saved, Submission.MembershipType) else Js.Str("yec"))
  {
    SubmissionLookup(saved, networkName, d);
  }

  /** `businessNetwork` falls back to the route's network name, then to `''`. */
  lemma BusinessNetworkFallback(saved: Option<Submission.Body>, networkName: Option<string>,
                                d: RegistrationData)
    ensures var p := SubmissionData(saved, networkName, d);
      && Submission.BusinessNetwork in p
      && p[Submission.BusinessNetwork] == (if Js.Truthy(Submission.Get(saved, Submission.BusinessNetwork)) then Submission.Get(saved, Submission.BusinessNetwork)
                                  else if networkName.Some? && networkName.value != "" then Js.Str(networkName.value)
                                  else Js.Str(""))
  {
    SubmissionLookup(saved, networkName, d);
  }

  /** Every personal field of the saved object is sent as saved when truthy, else as `''`. */
  lemma PersonalFieldsFallback(saved: Option<Submission.Body>, networkName: Option<string>,
                               d: RegistrationData)
    ensures var p := SubmissionData(saved, networkName, d);
      forall k :: k in PersonalKeys ==>
        (k in p && p[k] == (if Js.Truthy(Submission.Get(saved, k)) then Submission.Get(saved, k) else Js.Str("")))
  {
    SubmissionLookup(saved, networkName, d);
    forall k | k in PersonalKeys
      ensures SubmissionValue(saved, networkName, d, k) == SavedOr(saved, k, Js.Str(""))
    {
      PersonalValue(saved, networkName, d, k);
    }
  }

  lemma PersonalValue(saved: Option<Submission.Body>, networkName: Option<string>, d: RegistrationData,
                      k: Submission.Key)
    requires k in PersonalKeys
    ensures SubmissionValue(saved, networkName, d, k) == SavedOr(saved, k, Js.Str(""))
  {
  }

  /** Every key the request handler reads is present in the payload. */
  lemma SubmissionHasEveryKey(saved: Option<Submission.Body>, networkName: Option<string>, d: RegistrationData)
    ensures forall k: Submission.Key :: k in SubmissionData(saved, networkName, d)
  {
    SubmissionLookup(saved, networkName, d);
  }

  /** Images fall back to `null`, not to `''`. */
  lemma ImagesFallBackToNull(saved: Option<Submission.Body>, networkName: Option<string>,
                             d: RegistrationData)
    ensures var p := SubmissionData(saved, networkName, d);
      && Submission.TccCardImage in p && Submission.ProfileImage in p
      && (!Js.Truthy(Submission.Get(saved, Submission.TccCardImage)) ==> p[Submission.TccCardImage] == Js.Null)
      && (!Js.Truthy(Submission.Get(saved, Submission.ProfileImage)) ==> p[Submission.ProfileImage] == Js.Null)
  {
    SubmissionLookup(saved, networkName, d);
  }

  // ------------------------------------------------------------ the wizard

  /** The component's state: the current step and the form data, plus what was read at mount. */
  class Wizard {
    var currentStep: int
    var formData: RegistrationData
    /** The `:networkName` route parameter. */
    const networkName: Option<string>
    /** `businessNetworkFormData`, parsed from the JSON saved under that name, if any. */
    const saved: Option<Submission.Body>

    ghost predicate Valid()
      reads this
    {
      1 <= currentStep <= TotalSteps
    }

    constructor (networkName: Option<string>, saved: Option<Submission.Body>)
      ensures Valid()
      ensures currentStep == 1 && formData == EmptyRegistration
      ensures this.networkName == networkName && this.saved == saved
    {
      currentStep := 1;
      formData := EmptyRegistration;
      this.networkName := networkName;
      this.saved := saved;
    }

    function IsStepValid(): bool
      reads this
    {
      StepValid(currentStep, formData)
    }

    function CurrentControls(): Controls
      reads this
    {
      ControlsAt(currentStep, formData)
    }

    /** `handleNext`: one step forward unless at the last step. */
    method HandleNext()
      requires Valid()
      modifies this`currentStep
      ensures Valid()
      ensures currentStep == Stepper.Next(old(currentStep), TotalSteps)
      ensures old(currentStep) < TotalSteps ==> currentStep == old(currentStep) + 1
      ensures old(currentStep) == TotalSteps ==> currentStep == old(currentStep)
    {
      if currentStep < TotalSteps {
        currentStep := currentStep + 1;
      }
    }

    /** `handlePrevious`: one step back unless at step 1. */
    method HandlePrevious()
      requires Valid()
      modifies this`currentStep
      ensures Valid()
      ensures currentStep == Stepper.Previous(old(currentStep))
      ensures old(currentStep) > 1 ==> currentStep == old(currentStep) - 1
      ensures old(currentStep) == 1 ==> currentStep == 1
    {
      if currentStep > 1 {
        currentStep := currentStep - 1;
      }
    }

    /** `updateFormData(field, value)` for a text field. */
    method UpdateText(f: TextField, v: string)
      modifies this`formData
      ensures formData == WithText(old(formData), f, v)
    {
      formData := WithText(formData, f, v);
    }

    /** `updateFormData(field, checked)` for a consent checkbox. */
    method UpdateFlag(f: FlagField, v: bool)
      modifies this`formData
      ensures formData == WithFlag(old(formData), f, v)
    {
      formData := WithFlag(formData, f, v);
    }

    /** `handleArrayToggle(field, value)`. */
    method HandleArrayToggle(f: ListField, v: string)
      modifies this`formData
      ensures formData == WithList(old(formData), f, Choices.Toggle(List(old(formData), f), v))
      ensures v in List(formData, f) <==> v !in List(old(formData), f)
      ensures forall g :: g != f ==> List(formData, g) == List(old(formData), g)
      ensures forall g :: Text(formData, g) == Text(old(formData), g)
    {
      formData := WithList(formData, f, Choices.Toggle(List(formData, f), v));
    }

    /** `handleSubmit`'s payload; it changes no state of the wizard. */
    method HandleSubmit() returns (payload: Submission.Body)
      ensures payload == SubmissionData(saved, networkName, formData)
    {
      payload := SubmissionData(saved, networkName, formData);
    }

    /**
      A click on the primary button: nothing while it is disabled; below the
      last step it is Next; at the last step it is Submit and yields the payload.
    */
    method PressPrimary() returns (submitted: Option<Submission.Body>)
      requires Valid()
      modifies this`currentStep
      ensures Valid()
      ensures !old(IsStepValid()) ==> currentStep == old(currentStep) && submitted == None
      ensures old(IsStepValid()) && old(currentStep) < TotalSteps ==>
        currentStep == old(currentStep) + 1 && submitted == None
      ensures old(IsStepValid()) && old(currentStep) == TotalSteps ==>
        currentStep == TotalSteps && submitted == Some(SubmissionData(saved, networkName, formData))
    {
      submitted := None;
      var c := CurrentControls();
      if c.primaryDisabled {
        return;
      }
      match c.primary
      case NextButton =>
        HandleNext();
      case SubmitButton =>
        var payload := HandleSubmit();
        submitted := Some(payload);
    }
  }
}
