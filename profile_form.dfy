/**
  The member profile form: the field rules of its schema, the merge of the
  caller's default values over empty language and country lists, and the
  two checkbox lists that append on check and filter out on uncheck.
*/
module ProfileForm {
  import opened Wrappers
  import Choices

  /**
    The form's values, or a partial set of defaults for them: every property
    may be missing (`None`).
  */
  datatype ProfileInput = ProfileInput(
    fullNameTh: Option<string>,
    fullNameEn: Option<string>,
    email: Option<string>,
    telNo: Option<string>,
    lineId: Option<string>,
    companyName: Option<string>,
    taxId: Option<string>,
    yecProvince: Option<string>,
    businessStatus: Option<string>,
    languageSkills: Option<seq<string>>,
    businessCountries: Option<seq<string>>)

  /** What a successful parse hands to `onSubmit`: required fields present, list defaults filled in. */
  datatype ProfileData = ProfileData(
    fullNameTh: string,
    fullNameEn: string,
    email: string,
    telNo: string,
    lineId: Option<string>,
    companyName: Option<string>,
    taxId: Option<string>,
    yecProvince: Option<string>,
    businessStatus: Option<string>,
    languageSkills: seq<string>,
    businessCountries: seq<string>)

  /** The fields that carry a rule, in schema order. */
  datatype RuleField = FullNameTh | FullNameEn | Email | TelNo | TaxId

  /** `z.string().min(n)`: a string is required, and it must have at least `n` characters. */
  predicate MinLength(s: Option<string>, n: nat) {
    s.Some? && |s.value| >= n
  }

  /** `z.string().length(13).optional().or(z.literal(""))`. */
  predicate TaxIdOk(s: Option<string>) {
    s.None? || |s.value| == 13 || s.value == ""
  }

  /**
    Whether one rule holds. The email rule needs the string to be an address in
    the schema library's sense, which `isEmail` decides.
  */
  predicate RuleHolds(p: ProfileInput, f: RuleField, isEmail: string -> bool) {
    match f
    case FullNameTh => MinLength(p.fullNameTh, 1)
    case FullNameEn => MinLength(p.fullNameEn, 1)
    case Email => p.email.Some? && isEmail(p.email.value)
    case TelNo => MinLength(p.telNo, 10)
    case TaxId => TaxIdOk(p.taxId)
  }

  /** The fields whose rule fails, in schema order: the messages shown under the inputs. */
  function Issues(p: ProfileInput, isEmail: string -> bool): (r: seq<RuleField>)
    ensures forall f :: f in r <==> !RuleHolds(p, f, isEmail)
  {
    (if RuleHolds(p, FullNameTh, isEmail) then [] else [FullNameTh]) +
    (if RuleHolds(p, FullNameEn, isEmail) then [] else [FullNameEn]) +
    (if RuleHolds(p, Email, isEmail) then [] else [Email]) +
    (if RuleHolds(p, TelNo, isEmail) then [] else [TelNo]) +
    (if RuleHolds(p, TaxId, isEmail) then [] else [TaxId])
  }

  /** `profileSchema.safeParse`: the data when every rule holds, with missing lists defaulting to `[]`. */
  function Parse(p: ProfileInput, isEmail: string -> bool): (r: Option<ProfileData>)
    ensures r.Some? <==> Issues(p, isEmail) == []
  {
    if Issues(p, isEmail) == [] then
      Some(ProfileData(p.fullNameTh.value, p.fullNameEn.value, p.email.value, p.telNo.value,
        p.lineId, p.companyName, p.taxId, p.yecProvince, p.businessStatus,
        p.languageSkills.GetOr([]), p.businessCountries.GetOr([])))
    else None
  }

  /** The schema's rules, one by one, in both directions. */
  lemma Rules(p: ProfileInput, isEmail: string -> bool)
    ensures Parse(p, isEmail).Some? <==>
      && p.fullNameTh.Some? && |p.fullNameTh.value| >= 1
      && p.fullNameEn.Some? && |p.fullNameEn.value| >= 1
      && p.email.Some? && isEmail(p.email.value)
      && p.telNo.Some? && |p.telNo.value| >= 10
      && (p.taxId.None? || p.taxId.value == "" || |p.taxId.value| == 13)
  {
    var found := Issues(p, isEmail);
    if found != [] {
      assert found[0] in found;
    }
  }

  /** `line_id`, `company_name`, `yec_province` and `business_status` are free: no value, or its absence, can fail the parse. */
  lemma OptionalFieldsFree(p: ProfileInput, isEmail: string -> bool,
                           lineId: Option<string>, companyName: Option<string>,
                           yecProvince: Option<string>, businessStatus: Option<string>)
    ensures Parse(p.(lineId := lineId, companyName := companyName, yecProvince := yecProvince,
                     businessStatus := businessStatus), isEmail).Some?
        == Parse(p, isEmail).Some?
  {
    Rules(p, isEmail);
    Rules(p.(lineId := lineId, companyName := companyName, yecProvince := yecProvince,
             businessStatus := businessStatus), isEmail);
  }

  /** A successful parse keeps every value as given and fills a missing list with `[]`. */
  lemma ParseKeepsValues(p: ProfileInput, isEmail: string -> bool)
    requires Parse(p, isEmail).Some?
    ensures var d := Parse(p, isEmail).value;
      && Some(d.fullNameTh) == p.fullNameTh && Some(d.fullNameEn) == p.fullNameEn
      && Some(d.email) == p.email && Some(d.telNo) == p.telNo
      && d.lineId == p.lineId && d.companyName == p.companyName && d.taxId == p.taxId
      && d.yecProvince == p.yecProvince && d.businessStatus == p.businessStatus
      && (p.languageSkills.None? ==> d.languageSkills == [])
      && (p.languageSkills.Some? ==> d.languageSkills == p.languageSkills.value)
      && (p.businessCountries.None? ==> d.businessCountries == [])
      && (p.businessCountries.Some? ==> d.businessCountries == p.businessCountries.value)
  {
    Rules(p, isEmail);
  }

  // ------------------------------------------------------------ default values

  const NoValues: ProfileInput :=
    ProfileInput(None, None, None, None, None, None, None, None, None, None, None)

  /** `{ language_skills: [], business_countries: [], ...defaultValues }`. */
  function MergeDefaults(defaults: Option<ProfileInput>): (r: ProfileInput)
    ensures r.languageSkills.Some? && r.businessCountries.Some?
    ensures defaults.None? ==> r == NoValues.(languageSkills := Some([]), businessCountries := Some([]))
  {
    var own := NoValues.(languageSkills := Some([]), businessCountries := Some([]));
    match defaults
    case None => own
    case Some(d) =>
      d.(languageSkills := if d.languageSkills.Some? then d.languageSkills else own.languageSkills,
         businessCountries := if d.businessCountries.Some? then d.businessCountries else own.businessCountries)
  }

  /**
    Supplied defaults win: every property the caller gives is taken as is,
    and only the two lists fall back to `[]` when the caller leaves them out.
  */
  lemma SuppliedDefaultsOverride(d: ProfileInput)
    ensures var r := MergeDefaults(Some(d));
      && r.(languageSkills := d.languageSkills, businessCountries := d.businessCountries) == d
      && (d.languageSkills.Some? ==> r.languageSkills == d.languageSkills)
      && (d.languageSkills.None? ==> r.languageSkills == Some([]))
      && (d.businessCountries.Some? ==> r.businessCountries == d.businessCountries)
      && (d.businessCountries.None? ==> r.businessCountries == Some([]))
  {
  }

  /** Merging is idempotent: merging the merged values again as defaults changes nothing. */
  lemma MergeIdempotent(defaults: Option<ProfileInput>)
    ensures MergeDefaults(Some(MergeDefaults(defaults))) == MergeDefaults(defaults)
  {
  }

  // ------------------------------------------------------------ checkboxes

  /**
    The language and country checkboxes: `[...value, option]` on check and
    `value?.filter(v => v !== option)` on uncheck. Spreading a missing list
    throws, so a check needs a list; an uncheck of a missing list leaves it missing.
  */
  function OnCheckedChange(value: Option<seq<string>>, option: string, checked: bool): (r: Option<seq<string>>)
    requires checked ==> value.Some?
    ensures value.None? ==> r.None?
    ensures value.Some? ==> r == Some(Choices.SetChecked(value.value, option, checked))
  {
    match value
    case None => None
    case Some(xs) => Some(if checked then xs + [option] else Choices.RemoveAll(xs, option))
  }

  /** Starting from merged defaults a list is always present, so every click is defined and keeps it present. */
  lemma ClicksKeepListsPresent(defaults: Option<ProfileInput>, option: string, checked: bool)
    ensures var m := MergeDefaults(defaults);
      && OnCheckedChange(m.languageSkills, option, checked).Some?
      && OnCheckedChange(m.businessCountries, option, checked).Some?
  {
  }

  /** Checking an option and then clearing it restores the list it was added to. */
  lemma CheckThenUncheckRestores(xs: seq<string>, option: string)
    requires option !in xs
    ensures OnCheckedChange(OnCheckedChange(Some(xs), option, true), option, false) == Some(xs)
  {
    Choices.CheckThenUncheck(xs, option);
  }
}
