/**
 * Step 2 of the wizard: the website preferences form. The schema asks for
 * non-empty audience, theme and font strings, a logo choice of "existing" or
 * "new" and at least one feature; the current website and other features are
 * optional. Radio and checkbox values are not checked against the options the
 * form offers, and the current website is not checked to be a URL.
 */
module WebsiteForm {
  import opened Values
  import Toggle

  datatype AudienceValues = AudienceValues(age: string, location: string, interests: string)

  datatype ThemeValues = ThemeValues(colorScheme: string, mood: string)

  datatype WebsiteValues = WebsiteValues(
    targetAudience: AudienceValues,
    currentWebsite: Option<string>,
    themePreferences: ThemeValues,
    fontPreference: string,
    logo: string,
    features: seq<string>,
    otherFeatures: Option<string>)

  /** The values the form starts with: empty strings, logo "existing", no feature. */
  const DefaultValues: WebsiteValues :=
    WebsiteValues(AudienceValues("", "", ""), Some(""), ThemeValues("", ""), "", "existing", [], Some(""))

  /** The ids of the feature checkboxes, in the order drawn. */
  const FeatureIds: seq<string> := ["store", "booking", "contact", "blog", "testimonials", "portfolio", "reviews"]

  /** The logo enum: the only choice the schema restricts. */
  const LogoOptions: set<string> := {"existing", "new"}

  /** The field paths the schema checks. */
  const RequiredFields: set<Path> := {
    Nested(TargetAudience, Age), Nested(TargetAudience, Location), Nested(TargetAudience, Interests),
    Nested(ThemePreferences, ColorScheme), Nested(ThemePreferences, Mood),
    Field(FontPreference), Field(Logo), Field(Features)}

  /** The top-level keys of the fields that are always defined. */
  const FixedKeys: set<Key> := {TargetAudience, ThemePreferences, FontPreference, Logo, Features}

  /** Every top-level key the object handed to `onSubmit` can have. */
  const PayloadKeys: set<Key> := FixedKeys + {CurrentWebsite, OtherFeatures}

  /** The schema. */
  predicate Valid(v: WebsiteValues)
  {
    && |v.targetAudience.age| >= 1
    && |v.targetAudience.location| >= 1
    && |v.targetAudience.interests| >= 1
    && |v.themePreferences.colorScheme| >= 1
    && |v.themePreferences.mood| >= 1
    && |v.fontPreference| >= 1
    && v.logo in LogoOptions
    && |v.features| >= 1
  }

  /** The paths under `targetAudience` whose check fails. */
  function AudienceErrors(t: AudienceValues): (r: set<Path>)
    ensures r <= {Nested(TargetAudience, Age), Nested(TargetAudience, Location), Nested(TargetAudience, Interests)}
    ensures r == {} <==> |t.age| >= 1 && |t.location| >= 1 && |t.interests| >= 1
    ensures Nested(TargetAudience, Age) in r <==> t.age == []
    ensures Nested(TargetAudience, Location) in r <==> t.location == []
    ensures Nested(TargetAudience, Interests) in r <==> t.interests == []
  {
    (if t.age == [] then {Nested(TargetAudience, Age)} else {})
    + (if t.location == [] then {Nested(TargetAudience, Location)} else {})
    + (if t.interests == [] then {Nested(TargetAudience, Interests)} else {})
  }

  /** The paths under `themePreferences` whose check fails. */
  function ThemeErrors(t: ThemeValues): (r: set<Path>)
    ensures r <= {Nested(ThemePreferences, ColorScheme), Nested(ThemePreferences, Mood)}
    ensures r == {} <==> |t.colorScheme| >= 1 && |t.mood| >= 1
    ensures Nested(ThemePreferences, ColorScheme) in r <==> t.colorScheme == []
    ensures Nested(ThemePreferences, Mood) in r <==> t.mood == []
  {
    (if t.colorScheme == [] then {Nested(ThemePreferences, ColorScheme)} else {})
    + (if t.mood == [] then {Nested(ThemePreferences, Mood)} else {})
  }

  /** The field paths whose check fails. */
  function Errors(v: WebsiteValues): (r: set<Path>)
    ensures r <= RequiredFields
    ensures r == {} <==> Valid(v)
  {
    AudienceErrors(v.targetAudience)
    + ThemeErrors(v.themePreferences)
    + (if v.fontPreference == [] then {Field(FontPreference)} else {})
    + (if v.logo != "existing" && v.logo != "new" then {Field(Logo)} else {})
    + (if v.features == [] then {Field(Features)} else {})
  }

  /**
   * `form.handleSubmit(handleSubmit)`: when no field fails, the form's own
   * `handleSubmit` receives the values and forwards them, unchanged and once,
   * to `onSubmit`.
   */
  function Submit(v: WebsiteValues): (r: Submission<WebsiteValues>)
    ensures r.Accepted? <==> Valid(v)
    ensures r.Accepted? ==> r.data == v
    ensures r.Rejected? ==> r.errors == Errors(v) && r.errors != {}
  {
    Accept(v, Errors(v))
  }

  /** The `targetAudience` object of the payload. */
  function AudienceObject(t: AudienceValues): (o: Record)
    ensures o.Keys == {Age, Location, Interests}
  {
    map[Age := Text(t.age), Location := Text(t.location), Interests := Text(t.interests)]
  }

  /** The `themePreferences` object of the payload. */
  function ThemeObject(t: ThemeValues): (o: Record)
    ensures o.Keys == {ColorScheme, Mood}
  {
    map[ColorScheme := Text(t.colorScheme), Mood := Text(t.mood)]
  }

  /** The object handed to `onSubmit`, nested as the schema is; an undefined optional field has no key. */
  function Payload(v: WebsiteValues): (p: Record)
    ensures p.Keys == FixedKeys
      + (if v.currentWebsite.Some? then {CurrentWebsite} else {})
      + (if v.otherFeatures.Some? then {OtherFeatures} else {})
    ensures p.Keys <= PayloadKeys
  {
    var fixed := map[
      TargetAudience := Object(AudienceObject(v.targetAudience)),
      ThemePreferences := Object(ThemeObject(v.themePreferences)),
      FontPreference := Text(v.fontPreference),
      Logo := Text(v.logo),
      Features := List(v.features)];
    WithText(WithText(fixed, CurrentWebsite, v.currentWebsite), OtherFeatures, v.otherFeatures)
  }

  /** The form values read back from a payload. */
  function FromPayload(p: Record): WebsiteValues
  {
    var audience, theme := ObjectAt(p, TargetAudience), ObjectAt(p, ThemePreferences);
    WebsiteValues(
      AudienceValues(TextAt(audience, Age), TextAt(audience, Location), TextAt(audience, Interests)),
      OptionalTextAt(p, CurrentWebsite),
      ThemeValues(TextAt(theme, ColorScheme), TextAt(theme, Mood)),
      TextAt(p, FontPreference),
      TextAt(p, Logo),
      ListAt(p, Features),
      OptionalTextAt(p, OtherFeatures))
  }

  /** The payload loses nothing: reading it back gives the form values. */
  lemma PayloadRoundTrip(v: WebsiteValues)
    ensures FromPayload(Payload(v)) == v
  {
  }

  /** Hence distinct form values give distinct payloads. */
  lemma PayloadInjective(a: WebsiteValues, b: WebsiteValues)
    ensures Payload(a) == Payload(b) ==> a == b
  {
    PayloadRoundTrip(a);
    PayloadRoundTrip(b);
  }

  /** Toggling feature box `id` through its checkbox handler. */
  function ToggleFeature(v: WebsiteValues, id: string, checked: bool): (r: WebsiteValues)
    ensures Toggle.IsChecked(r.features, id) == checked
    ensures r == v.(features := r.features)
  {
    v.(features := Toggle.OnCheckedChange(v.features, id, checked))
  }

  /** Each check on its own: a field path fails exactly when its own rule does. */
  lemma FieldRules(v: WebsiteValues)
    ensures Field(Logo) in Errors(v) <==> v.logo !in LogoOptions
    ensures Field(Features) in Errors(v) <==> v.features == []
    ensures Field(FontPreference) in Errors(v) <==> v.fontPreference == []
  {
  }

  /** The nested checks on their own: each path under `targetAudience` and `themePreferences` fails exactly when its string is empty. */
  lemma NestedFieldRules(v: WebsiteValues)
    ensures Nested(TargetAudience, Age) in Errors(v) <==> v.targetAudience.age == []
    ensures Nested(TargetAudience, Location) in Errors(v) <==> v.targetAudience.location == []
    ensures Nested(TargetAudience, Interests) in Errors(v) <==> v.targetAudience.interests == []
    ensures Nested(ThemePreferences, ColorScheme) in Errors(v) <==> v.themePreferences.colorScheme == []
    ensures Nested(ThemePreferences, Mood) in Errors(v) <==> v.themePreferences.mood == []
  {
  }

  /** The current website and other features never cause a failure; there is no URL check. */
  lemma OptionalFieldsNeverFail(v: WebsiteValues, site: Option<string>, other: Option<string>)
    ensures Errors(v.(currentWebsite := site, otherFeatures := other)) == Errors(v)
  {
  }

  /** Radio values and feature entries are not checked against the options drawn. */
  lemma ChoicesNotRestricted(v: WebsiteValues)
    requires Valid(v)
    ensures Valid(v.(fontPreference := "x", themePreferences := ThemeValues("x", "x"), features := ["x"]))
    ensures "x" !in FeatureIds
  {
  }

  /** Checking any feature box clears a missing-feature error; unchecking the only one brings it back. */
  lemma FeatureToggleAndValidity(v: WebsiteValues, id: string)
    ensures Field(Features) !in Errors(ToggleFeature(v, id, true))
    ensures v.features == [id] ==> Field(Features) in Errors(ToggleFeature(v, id, false))
    ensures Errors(ToggleFeature(v, id, true)) == Errors(v) - {Field(Features)}
  {
  }

  /** The untouched form is rejected on every field but the logo, whose default is valid. */
  lemma DefaultsRejected()
    ensures Errors(DefaultValues) == RequiredFields - {Field(Logo)}
    ensures Submit(DefaultValues).Rejected?
  {
  }
}
