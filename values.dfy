/**
 * Value shapes shared by the intake wizard: the JSON-like values the step
 * forms hand upward, the flat record the wizard accumulates, and the outcome
 * of a validated form submission.
 */
module Values {

  datatype Option<T> = None | Some(value: T)

  /**
   * The property names the three form schemas use. Each constructor stands
   * for the camel-case name it spells: `BusinessName` is "businessName",
   * `Type` is "type". The same name under two parents is one key, as
   * "location" is at the top of the business payload and inside
   * `targetAudience`.
   */
  datatype Key =
    // business details
    | BusinessName | BusinessDomain | PrimaryService | Location | PrimaryLanguage | SecondaryLanguages
    // website preferences
    | TargetAudience | Age | Interests | CurrentWebsite | ThemePreferences | ColorScheme | Mood
    | FontPreference | Logo | Features | OtherFeatures
    // marketing preferences
    | SocialMedia | PreferredMarketing | TargetLocations | ContentTone | Blogging | Needed | Frequency
    | Topics | Budget | Type | Amount | MarketingMaterials | Kpis | MultilingualSupport
    | AdditionalRequirements | MarketingChallenges | FinalNotes

  /** A field path as the form library reports errors: "budget" is `Field(Budget)`, "budget.type" is `Nested(Budget, Type)`. */
  datatype Path = Field(key: Key) | Nested(parent: Key, child: Key)

  /** A JSON value, as far as the three step forms produce one. */
  datatype Value =
    | Text(text: string)
    | Flag(flag: bool)
    | List(items: seq<string>)
    | Object(fields: map<Key, Value>)

  /** A JavaScript object keyed by property name. */
  type Record = map<Key, Value>

  /**
   * What a form's submit handler does with the current input: either the
   * schema accepts it and the `onSubmit` callback receives it, or the schema
   * rejects it and the field paths in `errors` get an error message.
   */
  datatype Submission<T> = Accepted(data: T) | Rejected(errors: set<Path>)

  /** A form's submit handler: the callback receives the input, unchanged, exactly when no field fails. */
  function Accept<T>(v: T, errors: set<Path>): (r: Submission<T>)
    ensures r.Accepted? <==> errors == {}
    ensures r.Accepted? ==> r.data == v
    ensures r.Rejected? ==> r.errors == errors && r.errors != {}
  {
    if errors == {} then Accepted(v) else Rejected(errors)
  }

  /** `r` with the optional string field `key` added when it is defined: an undefined field gets no key. */
  function WithText(r: Record, key: Key, s: Option<string>): Record
  {
    if s.Some? then r[key := Text(s.value)] else r
  }

  // Reading a record back, field by field: a missing key or a value of another shape reads as the empty value.

  function TextAt(r: Record, k: Key): string
  {
    if k in r && r[k].Text? then r[k].text else ""
  }

  function OptionalTextAt(r: Record, k: Key): Option<string>
  {
    if k in r && r[k].Text? then Some(r[k].text) else None
  }

  function FlagAt(r: Record, k: Key): bool
  {
    k in r && r[k].Flag? && r[k].flag
  }

  function ListAt(r: Record, k: Key): seq<string>
  {
    if k in r && r[k].List? then r[k].items else []
  }

  function ObjectAt(r: Record, k: Key): Record
  {
    if k in r && r[k].Object? then r[k].fields else map[]
  }

  /** An optional field added to a record without that key reads back as itself, and every other entry stays. */
  lemma WithTextReadsBack(r: Record, key: Key, s: Option<string>)
    requires key !in r
    ensures OptionalTextAt(WithText(r, key, s), key) == s
    ensures key in WithText(r, key, s) <==> s.Some?
    ensures forall k :: k in WithText(r, key, s) ==> k in r || k == key
    ensures forall k :: k in r ==> k in WithText(r, key, s) && WithText(r, key, s)[k] == r[k]
  {
  }

  /** Merging records with pairwise disjoint keys keeps each one's entries. */
  lemma UnionOfDisjoint(p1: Record, p2: Record, p3: Record)
    requires p1.Keys !! p2.Keys && p1.Keys !! p3.Keys && p2.Keys !! p3.Keys
    ensures (p1 + p2 + p3).Keys == p1.Keys + p2.Keys + p3.Keys
    ensures forall k :: k in p1 ==> (p1 + p2 + p3)[k] == p1[k]
    ensures forall k :: k in p2 ==> (p1 + p2 + p3)[k] == p2[k]
    ensures forall k :: k in p3 ==> (p1 + p2 + p3)[k] == p3[k]
  {
  }
}
