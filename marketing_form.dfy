/**
 * Step 3 of the wizard: the marketing preferences form. The schema asks for
 * at least one social media platform and one KPI, non-empty preferred
 * platform, target locations and tone, a budget type of "monthly" or
 * "project" and a non-empty budget amount. Marketing materials may be empty,
 * the blogging block never fails (its frequency is not required even when
 * blogging is needed), the amount is not checked to be a number, and the four
 * free-text fields at the end are optional.
 */
module MarketingForm {
  import opened Values
  import Toggle

  datatype BloggingValues = BloggingValues(needed: bool, frequency: Option<string>, topics: Option<string>)

  /** `kind` is the schema's `budget.type`. */
  datatype BudgetValues = BudgetValues(kind: string, amount: string)

  datatype MarketingValues = MarketingValues(
    socialMedia: seq<string>,
    preferredMarketing: string,
    targetLocations: string,
    contentTone: string,
    blogging: BloggingValues,
    budget: BudgetValues,
    marketingMaterials: seq<string>,
    kpis: seq<string>,
    multilingualSupport: Option<string>,
    additionalRequirements: Option<string>,
    marketingChallenges: Option<string>,
    finalNotes: Option<string>)

  /** The values the form starts with: empty lists and strings, blogging off, a monthly budget. */
  const DefaultValues: MarketingValues := MarketingValues(
    [], "", "", "",
    BloggingValues(false, Some(""), Some("")),
    BudgetValues("monthly", ""),
    [], [],
    Some(""), Some(""), Some(""), Some(""))

  /** The ids of the three groups of checkboxes, in the order drawn. */
  const SocialPlatformIds: seq<string> := ["instagram", "facebook", "linkedin", "twitter", "youtube"]
  const MaterialIds: seq<string> := ["posters", "videoAds", "socialPosts"]
  const KpiIds: seq<string> := ["sales", "traffic", "engagement", "retention"]

  /** The budget type enum. */
  const BudgetTypes: set<string> := {"monthly", "project"}

  /** The field paths the schema checks. */
  const RequiredFields: set<Path> := {
    Field(SocialMedia), Field(PreferredMarketing), Field(TargetLocations), Field(ContentTone),
    Nested(Budget, Type), Nested(Budget, Amount), Field(Kpis)}

  /** The top-level keys of the object handed to `onSubmit`: always present ones, and optional ones. */
  const FixedKeys: set<Key> := {
    SocialMedia, PreferredMarketing, TargetLocations, ContentTone, Blogging, Budget,
    MarketingMaterials, Kpis}
  const OptionalKeys: set<Key> := {
    MultilingualSupport, AdditionalRequirements, MarketingChallenges, FinalNotes}

  /** Every top-level key the object handed to `onSubmit` can have. */
  const PayloadKeys: set<Key> := FixedKeys + OptionalKeys

  /** The schema. */
  predicate Valid(v: MarketingValues)
  {
    && |v.socialMedia| >= 1
    && |v.preferredMarketing| >= 1
    && |v.targetLocations| >= 1
    && |v.contentTone| >= 1
    && v.budget.kind in BudgetTypes
    && |v.budget.amount| >= 1
    && |v.kpis| >= 1
  }

  /** The paths under `budget` whose check fails. */
  function BudgetErrors(b: BudgetValues): (r: set<Path>)
    ensures r <= {Nested(Budget, Type), Nested(Budget, Amount)}
    ensures r == {} <==> b.kind in BudgetTypes && |b.amount| >= 1
  {
    (if b.kind != "monthly" && b.kind != "project" then {Nested(Budget, Type)} else {})
    + (if b.amount == [] then {Nested(Budget, Amount)} else {})
  }

  /** The field paths whose check fails. */
  function Errors(v: MarketingValues): (r: set<Path>)
    ensures r <= RequiredFields
    ensures r == {} <==> Valid(v)
  {
    (if v.socialMedia == [] then {Field(SocialMedia)} else {})
    + (if v.preferredMarketing == [] then {Field(PreferredMarketing)} else {})
    + (if v.targetLocations == [] then {Field(TargetLocations)} else {})
    + (if v.contentTone == [] then {Field(ContentTone)} else {})
    + BudgetErrors(v.budget)
    + (if v.kpis == [] then {Field(Kpis)} else {})
  }

  /** `form.handleSubmit(onSubmit)`: the callback receives the values only when no field fails. */
  function Submit(v: MarketingValues): (r: Submission<MarketingValues>)
    ensures r.Accepted? <==> Valid(v)
    ensures r.Accepted? ==> r.data == v
    ensures r.Rejected? ==> r.errors == Errors(v) && r.errors != {}
  {
    Accept(v, Errors(v))
  }

  /** The `blogging` object of the payload: the flag, and each optional text that is defined. */
  function BloggingObject(b: BloggingValues): (o: Record)
    ensures Needed in o && o[Needed] == Flag(b.needed)
    ensures o.Keys <= {Needed, Frequency, Topics}
  {
    WithText(WithText(map[Needed := Flag(b.needed)], Frequency, b.frequency), Topics, b.topics)
  }

  /** The `budget` object of the payload. */
  function BudgetObject(b: BudgetValues): (o: Record)
    ensures o.Keys == {Type, Amount}
  {
    map[Type := Text(b.kind), Amount := Text(b.amount)]
  }

  /** The entries for the four optional notes that are defined. */
  function Notes(v: MarketingValues): (n: Record)
    ensures n.Keys <= OptionalKeys
  {
    var first := WithText(WithText(map[], MultilingualSupport, v.multilingualSupport),
                          AdditionalRequirements, v.additionalRequirements);
    WithText(WithText(first, MarketingChallenges, v.marketingChallenges), FinalNotes, v.finalNotes)
  }

  /** The record `n` with the eight always-defined fields entered over it. */
  function WithFixed(n: Record, v: MarketingValues): Record
  {
    n
      [SocialMedia := List(v.socialMedia)]
      [PreferredMarketing := Text(v.preferredMarketing)]
      [TargetLocations := Text(v.targetLocations)]
      [ContentTone := Text(v.contentTone)]
      [Blogging := Object(BloggingObject(v.blogging))]
      [Budget := Object(BudgetObject(v.budget))]
      [MarketingMaterials := List(v.marketingMaterials)]
      [Kpis := List(v.kpis)]
  }

  /** The object handed to `onSubmit`, nested as the schema is: the always-defined fields and the defined optional ones. */
  function Payload(v: MarketingValues): (p: Record)
    ensures FixedKeys <= p.Keys <= PayloadKeys
  {
    WithFixed(Notes(v), v)
  }

  /** An optional field has a key in the payload exactly when it is defined. */
  lemma OptionalKeysAsDefined(v: MarketingValues)
    ensures MultilingualSupport in Payload(v) <==> v.multilingualSupport.Some?
    ensures AdditionalRequirements in Payload(v) <==> v.additionalRequirements.Some?
    ensures MarketingChallenges in Payload(v) <==> v.marketingChallenges.Some?
    ensures FinalNotes in Payload(v) <==> v.finalNotes.Some?
  {
    var n := Notes(v);
    WithFixedReadsThrough(n, v, MultilingualSupport);
    WithFixedReadsThrough(n, v, AdditionalRequirements);
    WithFixedReadsThrough(n, v, MarketingChallenges);
    WithFixedReadsThrough(n, v, FinalNotes);
    NotesRoundTrip(v);
  }

  /** The blogging values read back from a `blogging` object. */
  function BloggingFrom(o: Record): BloggingValues
  {
    BloggingValues(FlagAt(o, Needed), OptionalTextAt(o, Frequency), OptionalTextAt(o, Topics))
  }

  /** The budget values read back from a `budget` object. */
  function BudgetFrom(o: Record): BudgetValues
  {
    BudgetValues(TextAt(o, Type), TextAt(o, Amount))
  }

  /** The form values read back from a payload. */
  function FromPayload(p: Record): MarketingValues
  {
    MarketingValues(
      ListAt(p, SocialMedia),
      TextAt(p, PreferredMarketing),
      TextAt(p, TargetLocations),
      TextAt(p, ContentTone),
      BloggingFrom(ObjectAt(p, Blogging)),
      BudgetFrom(ObjectAt(p, Budget)),
      ListAt(p, MarketingMaterials),
      ListAt(p, Kpis),
      OptionalTextAt(p, MultilingualSupport),
      OptionalTextAt(p, AdditionalRequirements),
      OptionalTextAt(p, MarketingChallenges),
      OptionalTextAt(p, FinalNotes))
  }

  /** The `blogging` object reads back as the blogging values. */
  lemma BloggingRoundTrip(b: BloggingValues)
    ensures BloggingFrom(BloggingObject(b)) == b
  {
    var o1 := WithText(map[Needed := Flag(b.needed)], Frequency, b.frequency);
    WithTextReadsBack(map[Needed := Flag(b.needed)], Frequency, b.frequency);
    WithTextReadsBack(o1, Topics, b.topics);
  }

  /** The always-defined fields read back from over any record. */
  lemma WithFixedReadsBack(n: Record, v: MarketingValues)
    ensures var p := WithFixed(n, v);
      && ListAt(p, SocialMedia) == v.socialMedia && TextAt(p, PreferredMarketing) == v.preferredMarketing
      && TextAt(p, TargetLocations) == v.targetLocations && TextAt(p, ContentTone) == v.contentTone
      && ObjectAt(p, Blogging) == BloggingObject(v.blogging) && ObjectAt(p, Budget) == BudgetObject(v.budget)
      && ListAt(p, MarketingMaterials) == v.marketingMaterials && ListAt(p, Kpis) == v.kpis
  {
  }

  /** Any other key reads through the always-defined fields. */
  lemma WithFixedReadsThrough(n: Record, v: MarketingValues, k: Key)
    requires k !in FixedKeys
    ensures k in WithFixed(n, v) <==> k in n
    ensures OptionalTextAt(WithFixed(n, v), k) == OptionalTextAt(n, k)
  {
  }

  /** The notes read back as the optional fields. */
  lemma NotesRoundTrip(v: MarketingValues)
    ensures OptionalTextAt(Notes(v), MultilingualSupport) == v.multilingualSupport
    ensures OptionalTextAt(Notes(v), AdditionalRequirements) == v.additionalRequirements
    ensures OptionalTextAt(Notes(v), MarketingChallenges) == v.marketingChallenges
    ensures OptionalTextAt(Notes(v), FinalNotes) == v.finalNotes
    ensures MultilingualSupport in Notes(v) <==> v.multilingualSupport.Some?
    ensures AdditionalRequirements in Notes(v) <==> v.additionalRequirements.Some?
    ensures MarketingChallenges in Notes(v) <==> v.marketingChallenges.Some?
    ensures FinalNotes in Notes(v) <==> v.finalNotes.Some?
  {
    var n1 := WithText(map[], MultilingualSupport, v.multilingualSupport);
    WithTextReadsBack(map[], MultilingualSupport, v.multilingualSupport);
    var n2 := WithText(n1, AdditionalRequirements, v.additionalRequirements);
    WithTextReadsBack(n1, AdditionalRequirements, v.additionalRequirements);
    var n3 := WithText(n2, MarketingChallenges, v.marketingChallenges);
    WithTextReadsBack(n2, MarketingChallenges, v.marketingChallenges);
    WithTextReadsBack(n3, FinalNotes, v.finalNotes);
  }

  /** Over any record holding the optional fields, the always-defined fields complete the form values. */
  lemma WithFixedRoundTrip(n: Record, v: MarketingValues)
    requires OptionalTextAt(n, MultilingualSupport) == v.multilingualSupport
    requires OptionalTextAt(n, AdditionalRequirements) == v.additionalRequirements
    requires OptionalTextAt(n, MarketingChallenges) == v.marketingChallenges
    requires OptionalTextAt(n, FinalNotes) == v.finalNotes
    ensures FromPayload(WithFixed(n, v)) == v
  {
    WithFixedReadsBack(n, v);
    BloggingRoundTrip(v.blogging);
    WithFixedReadsThrough(n, v, MultilingualSupport);
    WithFixedReadsThrough(n, v, AdditionalRequirements);
    WithFixedReadsThrough(n, v, MarketingChallenges);
    WithFixedReadsThrough(n, v, FinalNotes);
  }

  /** The payload loses nothing: reading it back gives the form values. */
  lemma PayloadRoundTrip(v: MarketingValues)
    ensures FromPayload(Payload(v)) == v
  {
    NotesRoundTrip(v);
    WithFixedRoundTrip(Notes(v), v);
  }

  /** Hence distinct form values give distinct payloads. */
  lemma PayloadInjective(a: MarketingValues, b: MarketingValues)
    ensures Payload(a) == Payload(b) ==> a == b
  {
    PayloadRoundTrip(a);
    PayloadRoundTrip(b);
  }

  /** Toggling social media box `id`. */
  function ToggleSocialMedia(v: MarketingValues, id: string, checked: bool): (r: MarketingValues)
    ensures Toggle.IsChecked(r.socialMedia, id) == checked
    ensures r == v.(socialMedia := r.socialMedia)
  {
    v.(socialMedia := Toggle.OnCheckedChange(v.socialMedia, id, checked))
  }

  /** Toggling marketing material box `id`. */
  function ToggleMaterial(v: MarketingValues, id: string, checked: bool): (r: MarketingValues)
    ensures Toggle.IsChecked(r.marketingMaterials, id) == checked
    ensures r == v.(marketingMaterials := r.marketingMaterials)
  {
    v.(marketingMaterials := Toggle.OnCheckedChange(v.marketingMaterials, id, checked))
  }

  /** Toggling KPI box `id`. */
  function ToggleKpi(v: MarketingValues, id: string, checked: bool): (r: MarketingValues)
    ensures Toggle.IsChecked(r.kpis, id) == checked
    ensures r == v.(kpis := r.kpis)
  {
    v.(kpis := Toggle.OnCheckedChange(v.kpis, id, checked))
  }

  /** Each check on its own: a field path fails exactly when its own rule does. */
  lemma FieldRules(v: MarketingValues)
    ensures Field(SocialMedia) in Errors(v) <==> v.socialMedia == []
    ensures Field(Kpis) in Errors(v) <==> v.kpis == []
    ensures Field(PreferredMarketing) in Errors(v) <==> v.preferredMarketing == []
    ensures Field(TargetLocations) in Errors(v) <==> v.targetLocations == []
    ensures Field(ContentTone) in Errors(v) <==> v.contentTone == []
  {
  }

  /** The budget checks on their own: the type fails exactly outside its enum, the amount exactly when empty. */
  lemma BudgetRules(v: MarketingValues)
    ensures Nested(Budget, Type) in Errors(v) <==> v.budget.kind !in BudgetTypes
    ensures Nested(Budget, Amount) in Errors(v) <==> v.budget.amount == []
  {
  }

  /**
   * The blogging block never causes a failure, whatever `needed` is: in
   * particular blogging can be needed with no frequency given.
   */
  lemma BloggingNeverFails(v: MarketingValues, b: BloggingValues)
    ensures Errors(v.(blogging := b)) == Errors(v)
    ensures Valid(v) ==> Valid(v.(blogging := BloggingValues(true, None, None)))
  {
  }

  /** Marketing materials, which may be empty, and the four optional texts never cause a failure. */
  lemma OptionalFieldsNeverFail(v: MarketingValues, materials: seq<string>, a: Option<string>, b: Option<string>, c: Option<string>, d: Option<string>)
    ensures Errors(v.(marketingMaterials := materials, multilingualSupport := a,
                      additionalRequirements := b, marketingChallenges := c, finalNotes := d)) == Errors(v)
  {
  }

  /** The budget amount is not checked to be numeric, and list entries not against the drawn ids. */
  lemma ChoicesNotRestricted(v: MarketingValues)
    requires Valid(v)
    ensures Valid(v.(budget := BudgetValues("project", "lots"), socialMedia := ["x"], kpis := ["x"], contentTone := "x"))
    ensures "x" !in SocialPlatformIds && "x" !in KpiIds
  {
  }

  /** Checking a platform or KPI clears that group's error; unchecking the only one brings it back. */
  lemma SocialMediaToggleAndValidity(v: MarketingValues, id: string)
    ensures Errors(ToggleSocialMedia(v, id, true)) == Errors(v) - {Field(SocialMedia)}
    ensures v.socialMedia == [id] ==> Field(SocialMedia) in Errors(ToggleSocialMedia(v, id, false))
  {
  }

  /** The same for the KPI group. */
  lemma KpiToggleAndValidity(v: MarketingValues, id: string)
    ensures Errors(ToggleKpi(v, id, true)) == Errors(v) - {Field(Kpis)}
    ensures v.kpis == [id] ==> Field(Kpis) in Errors(ToggleKpi(v, id, false))
  {
  }

  /** The untouched form is rejected; its budget type and blogging block are valid on their own. */
  lemma DefaultsRejected()
    ensures Errors(DefaultValues) == RequiredFields - {Nested(Budget, Type)}
    ensures Submit(DefaultValues).Rejected?
  {
  }
}
