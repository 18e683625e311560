/**
  The four-session business network form: a session counter that moves by one
  within [1, 4] without any validation, field-by-field updates of the answers,
  and the skills and availability checkboxes that append on check and remove
  every equal entry on uncheck.
*/
module BusinessNetworkForm {
  import opened Wrappers
  import Choices
  import Stepper

  const TotalSessions: int := 4

  datatype FormData = FormData(
    // session 1: personal information
    firstName: string,
    lastName: string,
    email: string,
    phone: string,
    lineId: string,
    university: string,
    faculty: string,
    year: string,
    // session 2: interest and experience
    businessNetwork: string,
    previousExperience: string,
    motivation: string,
    skills: seq<string>,
    // session 3: availability
    timeCommitment: string,
    meetingPreference: string,
    availability: seq<string>,
    // session 4: business information
    businessIdea: string,
    targetMarket: string,
    businessStage: string,
    fundingNeeds: string,
    partnershipInterest: string)

  /** The form state at mount: every answer empty. */
  const EmptyForm: FormData :=
    FormData("", "", "", "", "", "", "", "", "", "", "", [], "", "", [], "", "", "", "", "")

  datatype TextField =
    | FirstName | LastName | Email | Phone | LineId | University | Faculty | Year
    | BusinessNetwork | PreviousExperience | Motivation | TimeCommitment | MeetingPreference
    | BusinessIdea | TargetMarket | BusinessStage | FundingNeeds | PartnershipInterest

  datatype ListField = Skills | Availability

  function Text(d: FormData, f: TextField): string {
    match f
    case FirstName => d.firstName
    case LastName => d.lastName
    case Email => d.email
    case Phone => d.phone
    case LineId => d.lineId
    case University => d.university
    case Faculty => d.faculty
    case Year => d.year
    case BusinessNetwork => d.businessNetwork
    case PreviousExperience => d.previousExperience
    case Motivation => d.motivation
    case TimeCommitment => d.timeCommitment
    case MeetingPreference => d.meetingPreference
    case BusinessIdea => d.businessIdea
    case TargetMarket => d.targetMarket
    case BusinessStage => d.businessStage
    case FundingNeeds => d.fundingNeeds
    case PartnershipInterest => d.partnershipInterest
  }

  function List(d: FormData, f: ListField): seq<string> {
    match f
    case Skills => d.skills
    case Availability => d.availability
  }

  /** `{ ...prev, [field]: value }` for a text answer: only that field changes. */
  function WithText(d: FormData, f: TextField, v: string): (r: FormData)
    ensures Text(r, f) == v
    ensures forall g :: g != f ==> Text(r, g) == Text(d, g)
    ensures forall g :: List(r, g) == List(d, g)
  {
    match f
    case FirstName => d.(firstName := v)
    case LastName => d.(lastName := v)
    case Email => d.(email := v)
    case Phone => d.(phone := v)
    case LineId => d.(lineId := v)
    case University => d.(university := v)
    case Faculty => d.(faculty := v)
    case Year => d.(year := v)
    case BusinessNetwork => d.(businessNetwork := v)
    case PreviousExperience => d.(previousExperience := v)
    case Motivation => d.(motivation := v)
    case TimeCommitment => d.(timeCommitment := v)
    case MeetingPreference => d.(meetingPreference := v)
    case BusinessIdea => d.(businessIdea := v)
    case TargetMarket => d.(targetMarket := v)
    case BusinessStage => d.(businessStage := v)
    case FundingNeeds => d.(fundingNeeds := v)
    case PartnershipInterest => d.(partnershipInterest := v)
  }

  /** `{ ...prev, [field]: value }` for one of the two checkbox lists. */
  function WithList(d: FormData, f: ListField, v: seq<string>): (r: FormData)
    ensures List(r, f) == v
    ensures forall g :: g != f ==> List(r, g) == List(d, g)
    ensures forall g :: Text(r, g) == Text(d, g)
  {
    match f
    case Skills => d.(skills := v)
    case Availability => d.(availability := v)
  }

  /** A record is determined by its fields, so `Text` and `List` describe a state completely. */
  lemma {:induction false} FieldsDetermineForm(a: FormData, b: FormData)
    requires forall f :: Text(a, f) == Text(b, f)
    requires forall f :: List(a, f) == List(b, f)
    ensures a == b
  {
    assert Text(a, FirstName) == Text(b, FirstName);
    assert Text(a, LastName) == Text(b, LastName);
    assert Text(a, Email) == Text(b, Email);
    assert Text(a, Phone) == Text(b, Phone);
    assert Text(a, LineId) == Text(b, LineId);
    assert Text(a, University) == Text(b, University);
    assert Text(a, Faculty) == Text(b, Faculty);
    assert Text(a, Year) == Text(b, Year);
    assert Text(a, BusinessNetwork) == Text(b, BusinessNetwork);
    assert Text(a, PreviousExperience) == Text(b, PreviousExperience);
    assert Text(a, Motivation) == Text(b, Motivation);
    assert Text(a, TimeCommitment) == Text(b, TimeCommitment);
    assert Text(a, MeetingPreference) == Text(b, MeetingPreference);
    assert Text(a, BusinessIdea) == Text(b, BusinessIdea);
    assert Text(a, TargetMarket) == Text(b, TargetMarket);
    assert Text(a, BusinessStage) == Text(b, BusinessStage);
    assert Text(a, FundingNeeds) == Text(b, FundingNeeds);
    assert Text(a, PartnershipInterest) == Text(b, PartnershipInterest);
    assert List(a, Skills) == List(b, Skills);
    assert List(a, Availability) == List(b, Availability);
  }

  /** The last update of a field is the one that counts, and rewriting a field's own value changes nothing. */
  lemma {:induction false} UpdatesOverwrite(d: FormData, f: TextField, v: string, w: string)
    ensures WithText(WithText(d, f, v), f, w) == WithText(d, f, w)
    ensures WithText(d, f, Text(d, f)) == d
  {
    FieldsDetermineForm(WithText(WithText(d, f, v), f, w), WithText(d, f, w));
    FieldsDetermineForm(WithText(d, f, Text(d, f)), d);
  }

  // ------------------------------------------------------------ buttons

  /** The navigation row: Previous (disabled at session 1) and either Next or Submit, never disabled. */
  datatype Controls = Controls(previousDisabled: bool, primary: Stepper.Primary)

  function ControlsAt(session: int): (c: Controls)
    ensures c.previousDisabled <==> session == 1
    ensures c.primary == Stepper.NextButton <==> session < TotalSessions
  {
    Controls(session == 1, if session < TotalSessions then Stepper.NextButton else Stepper.SubmitButton)
  }

  /**
    Navigation is ungated: from every session but the last a press of Next
    reaches the following one whatever the answers are, and a press of an
    enabled Previous goes back one.
  */
  lemma ButtonsMove(session: int)
    requires 1 <= session <= TotalSessions
    ensures ControlsAt(session).primary == Stepper.NextButton ==> Stepper.Next(session, TotalSessions) == session + 1
    ensures ControlsAt(session).primary == Stepper.SubmitButton ==> session == TotalSessions
    ensures !ControlsAt(session).previousDisabled ==> Stepper.Previous(session) == session - 1
  {
  }

  // ------------------------------------------------------------ the component state

  class SessionForm {
    var currentSession: int
    var formData: FormData

    ghost predicate Valid()
      reads this
    {
      1 <= currentSession <= TotalSessions
    }

    constructor ()
      ensures Valid()
      ensures currentSession == 1 && formData == EmptyForm
    {
      currentSession := 1;
      formData := EmptyForm;
    }

    function CurrentControls(): Controls
      reads this
    {
      ControlsAt(currentSession)
    }

    /** `handleNext`: one session forward unless at session 4. */
    method HandleNext()
      requires Valid()
      modifies this`currentSession
      ensures Valid()
      ensures currentSession == Stepper.Next(old(currentSession), TotalSessions)
      ensures old(currentSession) < TotalSessions ==> currentSession == old(currentSession) + 1
      ensures old(currentSession) == TotalSessions ==> currentSession == TotalSessions
    {
      if currentSession < TotalSessions {
        currentSession := currentSession + 1;
      }
    }

    /** `handlePrevious`: one session back unless at session 1. */
    method HandlePrevious()
      requires Valid()
      modifies this`currentSession
      ensures Valid()
      ensures currentSession == Stepper.Previous(old(currentSession))
      ensures old(currentSession) > 1 ==> currentSession == old(currentSession) - 1
      ensures old(currentSession) == 1 ==> currentSession == 1
    {
      if currentSession > 1 {
        currentSession := currentSession - 1;
      }
    }

    /** `updateFormData(field, value)` for a text answer. */
    method UpdateText(f: TextField, v: string)
      modifies this`formData
      ensures formData == WithText(old(formData), f, v)
    {
      formData := WithText(formData, f, v);
    }

    /** A checkbox of one of the two lists: check appends the value, uncheck drops every equal entry. */
    method OnChecked(f: ListField, v: string, checked: bool)
      modifies this`formData
      ensures formData == WithList(old(formData), f, Choices.SetChecked(List(old(formData), f), v, checked))
      ensures checked ==> List(formData, f) == List(old(formData), f) + [v]
      ensures !checked ==> v !in List(formData, f)
      ensures forall g :: g != f ==> List(formData, g) == List(old(formData), g)
      ensures forall g :: Text(formData, g) == Text(old(formData), g)
    {
      formData := WithList(formData, f, Choices.SetChecked(List(formData, f), v, checked));
    }

    /** The skills checkbox of session 2. */
    method OnSkillChecked(skill: string, checked: bool)
      modifies this`formData
      ensures formData == old(formData).(skills := Choices.SetChecked(old(formData).skills, skill, checked))
    {
      OnChecked(Skills, skill, checked);
    }

    /** The availability checkbox of session 3. */
    method OnAvailabilityChecked(day: string, checked: bool)
      modifies this`formData
      ensures formData == old(formData).(availability := Choices.SetChecked(old(formData).availability, day, checked))
    {
      OnChecked(Availability, day, checked);
    }

    /**
      A click on the button beside Previous: Next below session 4, Submit at it;
      Submit hands the current answers to the confirmation message and changes nothing.
    */
    method PressPrimary() returns (submitted: Option<FormData>)
      requires Valid()
      modifies this`currentSession
      ensures Valid()
      ensures old(currentSession) < TotalSessions ==>
        currentSession == old(currentSession) + 1 && submitted == None
      ensures old(currentSession) == TotalSessions ==>
        currentSession == TotalSessions && submitted == Some(formData)
    {
      submitted := None;
      match CurrentControls().primary
      case NextButton =>
        HandleNext();
      case SubmitButton =>
        submitted := Some(formData);
    }
  }
}
