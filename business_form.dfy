/**
 * Step 1 of the wizard: the business details form. Its schema is a
 * conjunction of minimum-length checks on five strings; the secondary
 * languages field is optional and never fails. The two selects (domain and
 * primary language) offer fixed options, but the schema only asks for a
 * non-empty string.
 */
module BusinessForm {
  import opened Values

  datatype BusinessValues = BusinessValues(
    businessName: string,
    businessDomain: string,
    primaryService: string,
    location: string,
    primaryLanguage: string,
    secondaryLanguages: Option<string>)

  /** The values the form starts with: every field an empty string. */
  const DefaultValues: BusinessValues := BusinessValues("", "", "", "", "", Some(""))

  /** The options the two selects offer; the schema does not consult them. */
  const DomainOptions: set<string> := {"retail", "manufacturing", "services", "technology", "other"}
  const LanguageOptions: set<string> := {"english", "spanish", "french", "german", "other"}

  /** The fields the schema checks. */
  const RequiredFields: set<Path> :=
    {Field(BusinessName), Field(BusinessDomain), Field(PrimaryService), Field(Location), Field(PrimaryLanguage)}

  /** The keys of the fields that are always defined. */
  const FixedKeys: set<Key> := {BusinessName, BusinessDomain, PrimaryService, Location, PrimaryLanguage}

  /** Every top-level key the object handed to `onSubmit` can have. */
  const PayloadKeys: set<Key> := FixedKeys + {SecondaryLanguages}

  /** The schema: business name, primary service and location of at least two characters, domain and language non-empty. */
  predicate Valid(v: BusinessValues)
  {
    && |v.businessName| >= 2
    && |v.businessDomain| >= 1
    && |v.primaryService| >= 2
    && |v.location| >= 2
    && |v.primaryLanguage| >= 1
  }

  /** The fields whose check fails, each of which shows its own message. */
  function Errors(v: BusinessValues): (r: set<Path>)
    ensures r <= RequiredFields
    ensures r == {} <==> Valid(v)
  {
    (if |v.businessName| < 2 then {Field(BusinessName)} else {})
    + (if |v.businessDomain| < 1 then {Field(BusinessDomain)} else {})
    + (if |v.primaryService| < 2 then {Field(PrimaryService)} else {})
    + (if |v.location| < 2 then {Field(Location)} else {})
    + (if |v.primaryLanguage| < 1 then {Field(PrimaryLanguage)} else {})
  }

  /** `form.handleSubmit(onSubmit)`: the callback receives the values only when no field fails. */
  function Submit(v: BusinessValues): (r: Submission<BusinessValues>)
    ensures r.Accepted? <==> Valid(v)
    ensures r.Accepted? ==> r.data == v
    ensures r.Rejected? ==> r.errors == Errors(v) && r.errors != {}
  {
    Accept(v, Errors(v))
  }

  /** The object handed to `onSubmit`: one key per field, an undefined optional field left out. */
  function Payload(v: BusinessValues): (p: Record)
    ensures p.Keys == FixedKeys + (if v.secondaryLanguages.Some? then {SecondaryLanguages} else {})
    ensures p.Keys <= PayloadKeys
  {
    var fixed := map[
      BusinessName := Text(v.businessName),
      BusinessDomain := Text(v.businessDomain),
      PrimaryService := Text(v.primaryService),
      Location := Text(v.location),
      PrimaryLanguage := Text(v.primaryLanguage)];
    WithText(fixed, SecondaryLanguages, v.secondaryLanguages)
  }

  /** The form values read back from a payload. */
  function FromPayload(p: Record): BusinessValues
  {
    BusinessValues(
      TextAt(p, BusinessName),
      TextAt(p, BusinessDomain),
      TextAt(p, PrimaryService),
      TextAt(p, Location),
      TextAt(p, PrimaryLanguage),
      OptionalTextAt(p, SecondaryLanguages))
  }

  /** The payload loses nothing: reading it back gives the form values. */
  lemma PayloadRoundTrip(v: BusinessValues)
    ensures FromPayload(Payload(v)) == v
  {
  }

  /** Hence distinct form values give distinct payloads. */
  lemma PayloadInjective(a: BusinessValues, b: BusinessValues)
    ensures Payload(a) == Payload(b) ==> a == b
  {
    PayloadRoundTrip(a);
    PayloadRoundTrip(b);
  }

  /** Each field's rule on its own: a field fails exactly when its own check does. */
  lemma FieldRules(v: BusinessValues)
    ensures Field(BusinessName) in Errors(v) <==> |v.businessName| < 2
    ensures Field(BusinessDomain) in Errors(v) <==> v.businessDomain == []
    ensures Field(PrimaryService) in Errors(v) <==> |v.primaryService| < 2
    ensures Field(Location) in Errors(v) <==> |v.location| < 2
    ensures Field(PrimaryLanguage) in Errors(v) <==> v.primaryLanguage == []
  {
  }

  /** Secondary languages never cause a failure, whether absent, empty or anything else. */
  lemma SecondaryLanguagesNeverFail(v: BusinessValues, s: Option<string>)
    ensures Errors(v.(secondaryLanguages := s)) == Errors(v)
  {
  }

  /** The selects are not restricted to their options: any non-empty string passes. */
  lemma SelectsAcceptAnyText(v: BusinessValues)
    requires Valid(v)
    ensures Valid(v.(businessDomain := "x", primaryLanguage := "x"))
    ensures "x" !in DomainOptions && "x" !in LanguageOptions
  {
  }

  /** The untouched form is rejected, on every checked field. */
  lemma DefaultsRejected()
    ensures Errors(DefaultValues) == RequiredFields
    ensures Submit(DefaultValues).Rejected?
  {
  }
}
