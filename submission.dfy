/**
  The keys of the JSON object POSTed to `/api/submit`. The same keys name the
  fields of the `businessNetworkFormData` object the registration wizard reads
  from browser storage; that object is written by a page outside this model.
  The request handler reads only these keys, so a JSON object is modelled as
  a map from them; any other key it carries is never read.
*/
module Submission {
  import opened Wrappers
  import Js

  datatype Key =
    | PdpaAccepted | MembershipType | YecProvince | TccCardImage | ProfileImage | BusinessNetwork
    | ThaiFirstName | ThaiLastName | EnglishFirstName | EnglishLastName | Nickname | Phone | Email
    | LineId | AddressProvince | AddressDistrict | AddressSubDistrict | PostalCode
    | BusinessName | BusinessType | BusinessSize | BusinessDescription | BusinessWebsite
    | BusinessPhone | BusinessEmail | AgricultureBusinessTypes | PainPoints | GroupBenefits
    | OtherGroupBenefits | InterestedActivities | WorkingTeamInterest | Expectations
    | OtherExpectations | InternationalMarkets | OtherInternationalMarkets
    | TermsAccepted | DataProcessingConsent

  type Body = map<Key, Js.Value>

  const AllKeys: set<Key> := {
    PdpaAccepted, MembershipType, YecProvince, TccCardImage, ProfileImage, BusinessNetwork,
    ThaiFirstName, ThaiLastName, EnglishFirstName, EnglishLastName, Nickname, Phone, Email,
    LineId, AddressProvince, AddressDistrict, AddressSubDistrict, PostalCode,
    BusinessName, BusinessType, BusinessSize, BusinessDescription, BusinessWebsite,
    BusinessPhone, BusinessEmail, AgricultureBusinessTypes, PainPoints, GroupBenefits,
    OtherGroupBenefits, InterestedActivities, WorkingTeamInterest, Expectations,
    OtherExpectations, InternationalMarkets, OtherInternationalMarkets,
    TermsAccepted, DataProcessingConsent
  }

  lemma AllKeysComplete()
    ensures forall k: Key :: k in AllKeys
  {
    forall k: Key ensures k in AllKeys {
      match k
      case PdpaAccepted =>
      case MembershipType =>
      case YecProvince =>
      case TccCardImage =>
      case ProfileImage =>
      case BusinessNetwork =>
      case ThaiFirstName =>
      case ThaiLastName =>
      case EnglishFirstName =>
      case EnglishLastName =>
      case Nickname =>
      case Phone =>
      case Email =>
      case LineId =>
      case AddressProvince =>
      case AddressDistrict =>
      case AddressSubDistrict =>
      case PostalCode =>
      case BusinessName =>
      case BusinessType =>
      case BusinessSize =>
      case BusinessDescription =>
      case BusinessWebsite =>
      case BusinessPhone =>
      case BusinessEmail =>
      case AgricultureBusinessTypes =>
      case PainPoints =>
      case GroupBenefits =>
      case OtherGroupBenefits =>
      case InterestedActivities =>
      case WorkingTeamInterest =>
      case Expectations =>
      case OtherExpectations =>
      case InternationalMarkets =>
      case OtherInternationalMarkets =>
      case TermsAccepted =>
      case DataProcessingConsent =>
    }
  }

  /** `body.key`, `undefined` when the key is absent or there is no object at all. */
  function Get(obj: Option<Body>, key: Key): Js.Value {
    match obj
    case None => Js.Undefined
    case Some(m) => if key in m then m[key] else Js.Undefined
  }
}
