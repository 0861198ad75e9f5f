/**
 * Model of the coding-rules page query codec: the mapping between the raw URL query
 * (a dictionary of strings) and the twenty-field `Query` record, the facet allow-list
 * and the one renamed facet between the web app and the server.
 *
 * The primitive parsers and serializers come from a helper module that is not part of
 * this model. They are carried as the fields of a `Helpers` value, so nothing is known
 * about them: every property below holds for every choice of helpers, and the round
 * trip is proved only under the hypothesis that the helpers round-trip themselves.
 */
module RulesQuery {
  import opened Wrappers

  /** One value of the raw URL query: absent, one string, or a repeated key's strings. */
  datatype RawValue = Missing | Str(s: string) | Strs(items: seq<string>)

  /**
   * A key of the raw URL query. The twenty keys the codec reads and writes have a
   * constructor each, spelled after the key; every other key is `Other`.
   */
  datatype UrlParam =
    | ParamActivation | ParamActiveSeverities | ParamAvailableSince | ParamCompareToProfile
    | ParamCwe | ParamInheritance | ParamIsTemplate | ParamLanguages | ParamOwaspTop10
    | ParamOwaspTop10_2021 | ParamQ | ParamQprofile | ParamRepositories | ParamRuleKey
    | ParamSansTop25 | ParamSeverities | ParamSonarsourceSecurity | ParamStatuses
    | ParamTags | ParamTypes
    | Other(name: string)

  /** The key as it appears in the URL. */
  function ParamName(p: UrlParam): string
  {
    match p
    case ParamActivation => "activation"
    case ParamActiveSeverities => "active_severities"
    case ParamAvailableSince => "available_since"
    case ParamCompareToProfile => "compareToProfile"
    case ParamCwe => "cwe"
    case ParamInheritance => "inheritance"
    case ParamIsTemplate => "is_template"
    case ParamLanguages => "languages"
    case ParamOwaspTop10 => "owaspTop10"
    case ParamOwaspTop10_2021 => "owaspTop10-2021"
    case ParamQ => "q"
    case ParamQprofile => "qprofile"
    case ParamRepositories => "repositories"
    case ParamRuleKey => "rule_key"
    case ParamSansTop25 => "sansTop25"
    case ParamSeverities => "severities"
    case ParamSonarsourceSecurity => "sonarsourceSecurity"
    case ParamStatuses => "statuses"
    case ParamTags => "tags"
    case ParamTypes => "types"
    case Other(name) => name
  }

  /** `Other` never stands for one of the twenty named keys. */
  ghost predicate CanonicalParam(p: UrlParam)
  {
    p.Other? ==> forall q: UrlParam :: q.Other? || ParamName(q) != p.name
  }

  /**
   * A raw query as JavaScript reads it: every key has a value, and a key the object does
   * not hold reads as `undefined` (`Missing`).
   */
  type RawQuery = UrlParam -> RawValue

  /** `query.key` in JavaScript. */
  function Lookup(raw: RawQuery, key: UrlParam): RawValue
  {
    raw(key)
  }

  /** The query with `key` set to `v`. */
  function With(raw: RawQuery, key: UrlParam, v: RawValue): (r: RawQuery)
    ensures Lookup(r, key) == v
    ensures forall p :: p != key ==> Lookup(r, p) == Lookup(raw, p)
  {
    p => if p == key then v else raw(p)
  }

  /** A calendar date, known only through its instant. */
  datatype Date = Date(epochMillis: int)

  /** The inheritance of a rule activation in a quality profile. */
  datatype RuleInheritance = INHERITED | NONE | OVERRIDES

  function InheritanceName(i: RuleInheritance): string
  {
    match i
    case INHERITED => "INHERITED"
    case NONE => "NONE"
    case OVERRIDES => "OVERRIDES"
  }

  /** The parsed search of the coding-rules page; `None` stands for `undefined`. */
  datatype Query = Query(
    activation: Option<bool>,
    activationSeverities: seq<string>,
    availableSince: Option<Date>,
    compareToProfile: Option<string>,
    cwe: seq<string>,
    inheritance: Option<RuleInheritance>,
    languages: seq<string>,
    owaspTop10: seq<string>,
    owaspTop10_2021: seq<string>,
    profile: Option<string>,
    repositories: seq<string>,
    ruleKey: Option<string>,
    sansTop25: seq<string>,
    searchQuery: Option<string>,
    severities: seq<string>,
    sonarsourceSecurity: seq<string>,
    statuses: seq<string>,
    tags: seq<string>,
    template: Option<bool>,
    types: seq<string>)

  /** The primitive helpers the codec is built from; their behaviour is unknown. */
  datatype Helpers = Helpers(
    parseAsOptionalBoolean: RawValue -> Option<bool>,
    parseAsArray: (RawValue, string -> string) -> seq<string>,
    parseAsString: string -> string,
    parseAsDate: RawValue -> Option<Date>,
    parseAsOptionalString: RawValue -> Option<string>,
    serializeOptionalBoolean: Option<bool> -> RawValue,
    serializeStringArray: seq<string> -> RawValue,
    serializeDateShort: Option<Date> -> RawValue,
    serializeString: Option<string> -> RawValue,
    cleanQuery: RawQuery -> RawQuery,
    queriesEqual: (Query, Query) -> bool)

  // ---------------------------------------------------------------------
  // The fields of `Query` and their URL keys
  // ---------------------------------------------------------------------

  /** The keys of `Query`, which are also the facet names of the page. */
  datatype FacetKey =
    | Activation | ActivationSeverities | AvailableSince | CompareToProfile | Cwe
    | Inheritance | Languages | OwaspTop10 | OwaspTop10_2021 | Profile
    | Repositories | RuleKey | SansTop25 | SearchQuery | Severities
    | SonarsourceSecurity | Statuses | Tags | Template | Types

  /** The type of each field of `Query`, as the interface declares it. */
  datatype FieldType = OptionalBoolean | StringList | OptionalDate | OptionalString | OptionalInheritance

  function KeyType(k: FacetKey): FieldType
  {
    match k
    case Activation | Template => OptionalBoolean
    case AvailableSince => OptionalDate
    case CompareToProfile | Profile | RuleKey | SearchQuery => OptionalString
    case Inheritance => OptionalInheritance
    case _ => StringList
  }

  /** The key as the web app spells it. */
  function KeyName(k: FacetKey): string
  {
    match k
    case Activation => "activation"
    case ActivationSeverities => "activationSeverities"
    case AvailableSince => "availableSince"
    case CompareToProfile => "compareToProfile"
    case Cwe => "cwe"
    case Inheritance => "inheritance"
    case Languages => "languages"
    case OwaspTop10 => "owaspTop10"
    case OwaspTop10_2021 => "owaspTop10-2021"
    case Profile => "profile"
    case Repositories => "repositories"
    case RuleKey => "ruleKey"
    case SansTop25 => "sansTop25"
    case SearchQuery => "searchQuery"
    case Severities => "severities"
    case SonarsourceSecurity => "sonarsourceSecurity"
    case Statuses => "statuses"
    case Tags => "tags"
    case Template => "template"
    case Types => "types"
  }

  /** The facet key a string names, if any. */
  function KeyNamed(name: string): (r: Option<FacetKey>)
    ensures r.Some? ==> KeyName(r.value) == name
    ensures forall k :: KeyName(k) == name ==> r == Some(k)
  {
    if name == "activation" then Some(Activation)
    else if name == "activationSeverities" then Some(ActivationSeverities)
    else if name == "availableSince" then Some(AvailableSince)
    else if name == "compareToProfile" then Some(CompareToProfile)
    else if name == "cwe" then Some(Cwe)
    else if name == "inheritance" then Some(Inheritance)
    else if name == "languages" then Some(Languages)
    else if name == "owaspTop10" then Some(OwaspTop10)
    else if name == "owaspTop10-2021" then Some(OwaspTop10_2021)
    else if name == "profile" then Some(Profile)
    else if name == "repositories" then Some(Repositories)
    else if name == "ruleKey" then Some(RuleKey)
    else if name == "sansTop25" then Some(SansTop25)
    else if name == "searchQuery" then Some(SearchQuery)
    else if name == "severities" then Some(Severities)
    else if name == "sonarsourceSecurity" then Some(SonarsourceSecurity)
    else if name == "statuses" then Some(Statuses)
    else if name == "tags" then Some(Tags)
    else if name == "template" then Some(Template)
    else if name == "types" then Some(Types)
    else None
  }

  /** The raw URL key under which each field travels. */
  function WireKey(k: FacetKey): UrlParam
  {
    match k
    case Activation => ParamActivation
    case ActivationSeverities => ParamActiveSeverities
    case AvailableSince => ParamAvailableSince
    case CompareToProfile => ParamCompareToProfile
    case Cwe => ParamCwe
    case Inheritance => ParamInheritance
    case Languages => ParamLanguages
    case OwaspTop10 => ParamOwaspTop10
    case OwaspTop10_2021 => ParamOwaspTop10_2021
    case Profile => ParamQprofile
    case Repositories => ParamRepositories
    case RuleKey => ParamRuleKey
    case SansTop25 => ParamSansTop25
    case SearchQuery => ParamQ
    case Severities => ParamSeverities
    case SonarsourceSecurity => ParamSonarsourceSecurity
    case Statuses => ParamStatuses
    case Tags => ParamTags
    case Template => ParamIsTemplate
    case Types => ParamTypes
  }

  /** Two raw queries that agree on each of the twenty named keys. */
  ghost predicate AgreeOnWireKeys(a: RawQuery, b: RawQuery)
  {
    forall p: UrlParam :: p.Other? || Lookup(a, p) == Lookup(b, p)
  }

  // ---------------------------------------------------------------------
  // Inheritance
  // ---------------------------------------------------------------------

  /** Only the three inheritance names are accepted; anything else, or absence, is `undefined`. */
  function ParseAsInheritance(value: RawValue): (r: Option<RuleInheritance>)
    ensures r.Some? <==> value.Str? && value.s in {"INHERITED", "NONE", "OVERRIDES"}
    ensures r.Some? ==> value == Str(InheritanceName(r.value))
  {
    if value == Str("INHERITED") then Some(INHERITED)
    else if value == Str("NONE") then Some(NONE)
    else if value == Str("OVERRIDES") then Some(OVERRIDES)
    else None
  }

  /** The inheritance is written as its own name; `undefined` stays absent. */
  function SerializeInheritance(value: Option<RuleInheritance>): (r: RawValue)
    ensures value.None? <==> r == Missing
  {
    match value
    case None => Missing
    case Some(i) => Str(InheritanceName(i))
  }

  lemma InheritanceRoundTrip(value: Option<RuleInheritance>)
    ensures ParseAsInheritance(SerializeInheritance(value)) == value
  {
  }

  // ---------------------------------------------------------------------
  // The codec
  // ---------------------------------------------------------------------

  function ParseQuery(h: Helpers, raw: RawQuery): Query
  {
    Query(
      h.parseAsOptionalBoolean(Lookup(raw, ParamActivation)),
      h.parseAsArray(Lookup(raw, ParamActiveSeverities), h.parseAsString),
      h.parseAsDate(Lookup(raw, ParamAvailableSince)),
      h.parseAsOptionalString(Lookup(raw, ParamCompareToProfile)),
      h.parseAsArray(Lookup(raw, ParamCwe), h.parseAsString),
      ParseAsInheritance(Lookup(raw, ParamInheritance)),
      h.parseAsArray(Lookup(raw, ParamLanguages), h.parseAsString),
      h.parseAsArray(Lookup(raw, ParamOwaspTop10), h.parseAsString),
      h.parseAsArray(Lookup(raw, ParamOwaspTop10_2021), h.parseAsString),
      h.parseAsOptionalString(Lookup(raw, ParamQprofile)),
      h.parseAsArray(Lookup(raw, ParamRepositories), h.parseAsString),
      h.parseAsOptionalString(Lookup(raw, ParamRuleKey)),
      h.parseAsArray(Lookup(raw, ParamSansTop25), h.parseAsString),
      h.parseAsOptionalString(Lookup(raw, ParamQ)),
      h.parseAsArray(Lookup(raw, ParamSeverities), h.parseAsString),
      h.parseAsArray(Lookup(raw, ParamSonarsourceSecurity), h.parseAsString),
      h.parseAsArray(Lookup(raw, ParamStatuses), h.parseAsString),
      h.parseAsArray(Lookup(raw, ParamTags), h.parseAsString),
      h.parseAsOptionalBoolean(Lookup(raw, ParamIsTemplate)),
      h.parseAsArray(Lookup(raw, ParamTypes), h.parseAsString))
  }

  /** The value `serializeQuery` writes under each of its keys, one line of its object literal each. */
  function SerializedEntry(h: Helpers, q: Query, p: UrlParam): RawValue
  {
    match p
    case ParamActivation => h.serializeOptionalBoolean(q.activation)
    case ParamActiveSeverities => h.serializeStringArray(q.activationSeverities)
    case ParamAvailableSince => h.serializeDateShort(q.availableSince)
    case ParamCompareToProfile => h.serializeString(q.compareToProfile)
    case ParamCwe => h.serializeStringArray(q.cwe)
    case ParamInheritance => SerializeInheritance(q.inheritance)
    case ParamIsTemplate => h.serializeOptionalBoolean(q.template)
    case ParamLanguages => h.serializeStringArray(q.languages)
    case ParamOwaspTop10 => h.serializeStringArray(q.owaspTop10)
    case ParamOwaspTop10_2021 => h.serializeStringArray(q.owaspTop10_2021)
    case ParamQ => h.serializeString(q.searchQuery)
    case ParamQprofile => h.serializeString(q.profile)
    case ParamRepositories => h.serializeStringArray(q.repositories)
    case ParamRuleKey => h.serializeString(q.ruleKey)
    case ParamSansTop25 => h.serializeStringArray(q.sansTop25)
    case ParamSeverities => h.serializeStringArray(q.severities)
    case ParamSonarsourceSecurity => h.serializeStringArray(q.sonarsourceSecurity)
    case ParamStatuses => h.serializeStringArray(q.statuses)
    case ParamTags => h.serializeStringArray(q.tags)
    case ParamTypes => h.serializeStringArray(q.types)
    case Other(_) => Missing
  }

  /** The dictionary `serializeQuery` hands to `cleanQuery`. */
  function QueryEntries(h: Helpers, q: Query): RawQuery
  {
    p => SerializedEntry(h, q, p)
  }

  function SerializeQuery(h: Helpers, q: Query): RawQuery
  {
    h.cleanQuery(QueryEntries(h, q))
  }

  function AreQueriesEqual(h: Helpers, a: RawQuery, b: RawQuery): bool
  {
    h.queriesEqual(ParseQuery(h, a), ParseQuery(h, b))
  }

  /** `parseQuery` reads nothing but the wire keys. */
  lemma ParseReadsOnlyWireKeys(h: Helpers, a: RawQuery, b: RawQuery)
    requires AgreeOnWireKeys(a, b)
    ensures ParseQuery(h, a) == ParseQuery(h, b)
  {
  }

  /** `areQueriesEqual` sees raw queries only through their parsed forms. */
  lemma AreQueriesEqualOnParsed(h: Helpers, a: RawQuery, a': RawQuery, b: RawQuery)
    requires ParseQuery(h, a) == ParseQuery(h, a')
    ensures AreQueriesEqual(h, a, b) == AreQueriesEqual(h, a', b)
    ensures AreQueriesEqual(h, b, a) == AreQueriesEqual(h, b, a')
  {
  }

  /** What each primitive parser would have to satisfy to undo its serializer. */
  ghost predicate ParsersInvertSerializers(h: Helpers)
  {
    && (forall b :: h.parseAsOptionalBoolean(h.serializeOptionalBoolean(b)) == b)
    && (forall xs :: h.parseAsArray(h.serializeStringArray(xs), h.parseAsString) == xs)
    && (forall d :: h.parseAsDate(h.serializeDateShort(d)) == d)
    && (forall s :: h.parseAsOptionalString(h.serializeString(s)) == s)
  }

  /** What `cleanQuery` would have to satisfy: every key reads the same after cleaning. */
  ghost predicate CleanKeepsLookups(h: Helpers)
  {
    forall raw, p :: Lookup(h.cleanQuery(raw), p) == Lookup(raw, p)
  }

  /**
   * Each field is read back from the key it was written to: when the helpers round-trip
   * and cleaning keeps every lookup, parsing a serialized query gives it back.
   */
  lemma SerializeParseRoundTrip(h: Helpers, q: Query)
    requires ParsersInvertSerializers(h) && CleanKeepsLookups(h)
    ensures ParseQuery(h, SerializeQuery(h, q)) == q
  {
    var entries := QueryEntries(h, q);
    assert AgreeOnWireKeys(SerializeQuery(h, q), entries);
    ParseReadsOnlyWireKeys(h, SerializeQuery(h, q), entries);
    ParseEntries(h, q);
  }

  /** Parsing the entries `serializeQuery` builds, before cleaning, gives the query back. */
  lemma ParseEntries(h: Helpers, q: Query)
    requires ParsersInvertSerializers(h)
    ensures ParseQuery(h, QueryEntries(h, q)) == q
  {
    ParseActivationEntry(h, q);
    ParseActivationSeveritiesEntry(h, q);
    ParseAvailableSinceEntry(h, q);
    ParseCompareToProfileEntry(h, q);
    ParseCweEntry(h, q);
    ParseInheritanceEntry(h, q);
    ParseLanguagesEntry(h, q);
    ParseOwaspTop10Entry(h, q);
    ParseOwaspTop10_2021Entry(h, q);
    ParseProfileEntry(h, q);
    ParseRepositoriesEntry(h, q);
    ParseRuleKeyEntry(h, q);
    ParseSansTop25Entry(h, q);
    ParseSearchQueryEntry(h, q);
    ParseSeveritiesEntry(h, q);
    ParseSonarsourceSecurityEntry(h, q);
    ParseStatusesEntry(h, q);
    ParseTagsEntry(h, q);
    ParseTemplateEntry(h, q);
    ParseTypesEntry(h, q);
  }

  // The same, one field at a time: each field is read back from the key it was written to.

  lemma ParseActivationEntry(h: Helpers, q: Query)
    requires ParsersInvertSerializers(h)
    ensures ParseQuery(h, QueryEntries(h, q)).activation == q.activation
  {
  }

  lemma ParseActivationSeveritiesEntry(h: Helpers, q: Query)
    requires ParsersInvertSerializers(h)
    ensures ParseQuery(h, QueryEntries(h, q)).activationSeverities == q.activationSeverities
  {
  }

  lemma ParseAvailableSinceEntry(h: Helpers, q: Query)
    requires ParsersInvertSerializers(h)
    ensures ParseQuery(h, QueryEntries(h, q)).availableSince == q.availableSince
  {
  }

  lemma ParseCompareToProfileEntry(h: Helpers, q: Query)
    requires ParsersInvertSerializers(h)
    ensures ParseQuery(h, QueryEntries(h, q)).compareToProfile == q.compareToProfile
  {
  }

  lemma ParseCweEntry(h: Helpers, q: Query)
    requires ParsersInvertSerializers(h)
    ensures ParseQuery(h, QueryEntries(h, q)).cwe == q.cwe
  {
  }

  lemma ParseInheritanceEntry(h: Helpers, q: Query)
    requires ParsersInvertSerializers(h)
    ensures ParseQuery(h, QueryEntries(h, q)).inheritance == q.inheritance
  {
    InheritanceRoundTrip(q.inheritance);
  }

  lemma ParseLanguagesEntry(h: Helpers, q: Query)
    requires ParsersInvertSerializers(h)
    ensures ParseQuery(h, QueryEntries(h, q)).languages == q.languages
  {
  }

  lemma ParseOwaspTop10Entry(h: Helpers, q: Query)
    requires ParsersInvertSerializers(h)
    ensures ParseQuery(h, QueryEntries(h, q)).owaspTop10 == q.owaspTop10
  {
  }

  lemma ParseOwaspTop10_2021Entry(h: Helpers, q: Query)
    requires ParsersInvertSerializers(h)
    ensures ParseQuery(h, QueryEntries(h, q)).owaspTop10_2021 == q.owaspTop10_2021
  {
  }

  lemma ParseProfileEntry(h: Helpers, q: Query)
    requires ParsersInvertSerializers(h)
    ensures ParseQuery(h, QueryEntries(h, q)).profile == q.profile
  {
  }

  lemma ParseRepositoriesEntry(h: Helpers, q: Query)
    requires ParsersInvertSerializers(h)
    ensures ParseQuery(h, QueryEntries(h, q)).repositories == q.repositories
  {
  }

  lemma ParseRuleKeyEntry(h: Helpers, q: Query)
    requires ParsersInvertSerializers(h)
    ensures ParseQuery(h, QueryEntries(h, q)).ruleKey == q.ruleKey
  {
  }

  lemma ParseSansTop25Entry(h: Helpers, q: Query)
    requires ParsersInvertSerializers(h)
    ensures ParseQuery(h, QueryEntries(h, q)).sansTop25 == q.sansTop25
  {
  }

  lemma ParseSearchQueryEntry(h: Helpers, q: Query)
    requires ParsersInvertSerializers(h)
    ensures ParseQuery(h, QueryEntries(h, q)).searchQuery == q.searchQuery
  {
  }

  lemma ParseSeveritiesEntry(h: Helpers, q: Query)
    requires ParsersInvertSerializers(h)
    ensures ParseQuery(h, QueryEntries(h, q)).severities == q.severities
  {
  }

  lemma ParseSonarsourceSecurityEntry(h: Helpers, q: Query)
    requires ParsersInvertSerializers(h)
    ensures ParseQuery(h, QueryEntries(h, q)).sonarsourceSecurity == q.sonarsourceSecurity
  {
  }

  lemma ParseStatusesEntry(h: Helpers, q: Query)
    requires ParsersInvertSerializers(h)
    ensures ParseQuery(h, QueryEntries(h, q)).statuses == q.statuses
  {
  }

  lemma ParseTagsEntry(h: Helpers, q: Query)
    requires ParsersInvertSerializers(h)
    ensures ParseQuery(h, QueryEntries(h, q)).tags == q.tags
  {
  }

  lemma ParseTemplateEntry(h: Helpers, q: Query)
    requires ParsersInvertSerializers(h)
    ensures ParseQuery(h, QueryEntries(h, q)).template == q.template
  {
  }

  lemma ParseTypesEntry(h: Helpers, q: Query)
    requires ParsersInvertSerializers(h)
    ensures ParseQuery(h, QueryEntries(h, q)).types == q.types
  {
  }

  // ---------------------------------------------------------------------
  // Facets
  // ---------------------------------------------------------------------

  const FACETS_TO_REQUEST: seq<string> := [
    "activationSeverities", "cwe", "languages", "owaspTop10", "owaspTop10-2021",
    "repositories", "sansTop25", "severities", "sonarsourceSecurity", "standard",
    "statuses", "tags", "types"]

  function ShouldRequestFacet(facet: string): bool
  {
    facet in FACETS_TO_REQUEST
  }

  /** Every requested facet is a list-valued field of `Query`, or `standard`, which names no field. */
  lemma RequestedFacetsAreListFields(facet: string)
    requires ShouldRequestFacet(facet)
    ensures (KeyNamed(facet).Some? && KeyType(KeyNamed(facet).value) == StringList) || facet == "standard"
  {
  }

  /** Every list-valued field of `Query` is requested. */
  lemma ListFieldsAreRequested(k: FacetKey)
    requires KeyType(k) == StringList
    ensures ShouldRequestFacet(KeyName(k))
  {
  }

  /** No other field of `Query` is requested. */
  lemma ScalarFieldsAreNotRequested(k: FacetKey)
    requires KeyType(k) != StringList
    ensures !ShouldRequestFacet(KeyName(k))
  {
  }

  /** `standard` is requested although it names no field of `Query`. */
  lemma StandardIsNoField()
    ensures ShouldRequestFacet("standard")
    ensures KeyNamed("standard") == None
  {
  }

  function GetServerFacet(facet: FacetKey): string
  {
    if facet == ActivationSeverities then "active_severities" else KeyName(facet)
  }

  /** The server's name is taken back to a facet key without checking it is one. */
  function GetAppFacet(serverFacet: string): string
  {
    if serverFacet == "active_severities" then KeyName(ActivationSeverities) else serverFacet
  }

  /** Renaming for the server and back gives every facet key back. */
  lemma AppServerFacetRoundTrip(facet: FacetKey)
    ensures GetAppFacet(GetServerFacet(facet)) == KeyName(facet)
  {
  }

  /** The server's name of each list-valued facet is that field's URL key. */
  lemma ServerFacetIsWireKey(facet: FacetKey)
    requires KeyType(facet) == StringList
    ensures GetServerFacet(facet) == ParamName(WireKey(facet))
  {
  }

  /** Only `activationSeverities` is renamed. */
  lemma ServerFacetRenamesOne(facet: FacetKey)
    ensures GetServerFacet(facet) != KeyName(facet) <==> facet == ActivationSeverities
  {
  }

  /** The `open` key: the rule whose details are shown. */
  function GetOpen(raw: RawQuery): RawValue
  {
    Lookup(raw, Other("open"))
  }

  /** The `selected` key: the rule highlighted in the list. */
  function GetSelected(raw: RawQuery): RawValue
  {
    Lookup(raw, Other("selected"))
  }

  /** Neither `open` nor `selected` spells one of the twenty keys the codec reads. */
  lemma OpenAndSelectedAreOwnKeys()
    ensures CanonicalParam(Other("open")) && CanonicalParam(Other("selected"))
  {
  }

  /** Setting `open` and `selected` is seen by their readers and by nothing else. */
  lemma OpenAndSelectedRead(h: Helpers, raw: RawQuery, open: RawValue, selected: RawValue)
    ensures var raw' := With(With(raw, Other("open"), open), Other("selected"), selected);
      GetOpen(raw') == open && GetSelected(raw') == selected && ParseQuery(h, raw') == ParseQuery(h, raw)
  {
    var raw' := With(With(raw, Other("open"), open), Other("selected"), selected);
    assert AgreeOnWireKeys(raw', raw);
    ParseReadsOnlyWireKeys(h, raw', raw);
  }

  /** JavaScript truthiness of `rule_key`: absent and the empty string are false. */
  function HasRuleKey(raw: RawQuery): (r: bool)
    ensures Lookup(raw, ParamRuleKey) == Missing ==> !r
    ensures Lookup(raw, ParamRuleKey) == Str("") ==> !r
    ensures Lookup(raw, ParamRuleKey).Str? && Lookup(raw, ParamRuleKey).s != "" ==> r
  {
    match Lookup(raw, ParamRuleKey)
    case Missing => false
    case Str(s) => s != ""
    case Strs(_) => true
  }
}
