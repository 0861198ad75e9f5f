# SonarQube core logic in Dafny

This project models six pieces of SonarQube that hold logic of their own, and proves
properties of them:

- **Duplication block chunker** (`block_chunker.dfy`, module `Chunker`). A file's
  statements are cut into overlapping blocks for copy-paste detection. First, every run
  of consecutive statements with equal text is reduced to its first and last statement.
  Then a window of `blockSize` statements slides over what is left. Each window gets a
  64-bit Rabin-Karp hash, kept up to date as the window moves. The class keeps the
  source's loops. Each method is proved against a specification function: `Collapse` for
  the filter, and the polynomial `SumForm` for the hash.
- **Coding-rules query codec** (`coding_rules_query.dfy`, module `RulesQuery`). It maps
  between the page's raw URL query and its twenty-field `Query` record. It also holds the
  `inheritance` enum parser, the facet allow-list and the one facet the server names
  differently.
- **Standard-facet selection rules** (`standard_facet.dfy`, module `StandardFacet`). These
  are the pure rules inside the security-standards facet of the rules page: selecting and
  deselecting a category, clearing every standard, ordering categories by count, and the
  rule "first fifteen, plus every selected category further down".
- **Server user session** (`server_user_session.dfy`, module `UserSession`). A class with
  the session's two caches and its three values loaded on first use. The database is a
  read-only oracle.
- **`UpdateField`** (`update_field.dfy`, module `UpdateFields`). The tri-state field of a
  partial update in the v2 web API: either absent, or given a value that may be `null`.
- **Bitbucket Pipelines .NET example** (`dotnet_pipeline.dfy`, module `DotNetPipeline`).
  The YAML text that the .NET tutorial shows.

`seqs.dfy` (module `Seqs`) holds the sequence vocabulary the models share: subsequences,
filtering, distinctness and a stable insertion sort. `wrappers.dfy` holds `Option` and
`Result`.

How the model represents the source:

- A Java `long` is a residue modulo 2^64, and every `long` operation wraps explicitly.
- `String.hashCode` follows the JDK's recurrence with 32-bit wrap-around, over Dafny
  characters (Unicode scalar values) rather than UTF-16 code units.
- JavaScript `undefined` and Java `null` are `None`.
- A JavaScript dictionary read by key is a total function that answers `Missing` for an
  absent key.
- A database query of the session is a function field of `Db`.
- The primitive parsers and serializers of the web app's query helpers are function
  fields of `Helpers`. Nothing about their behaviour is assumed.

## Model

| member | source | states |
|---|---|---|
| Chunker.StringHashCode | sonar-duplications/src/main/java/org/sonar/duplications/block/BlockChunker.java:28-36 | A statement's hash code is a 32-bit signed integer |
| Chunker.PowerExponent | sonar-duplications/src/main/java/org/sonar/duplications/block/BlockChunker.java:59 | The number of times the loop multiplies: blockSize-1 for a positive block size, 0 for the other `int` values, and 2^31-1 at the smallest `int`, where `blockSize - 1` wraps |
| Chunker.CalculatePower | sonar-duplications/src/main/java/org/sonar/duplications/block/BlockChunker.java:57-63 | `power` is 31 raised to the loop's wrapped `int` bound, modulo 2^64: 31^(blockSize-1) for a positive block size, 1 for the other block sizes below 2, and 31^(2^31-1) at the smallest `int` |
| Chunker.BlockChunker.constructor | sonar-duplications/src/main/java/org/sonar/duplications/block/BlockChunker.java:46-55 | For any `int` block size, the chunker keeps it, and its power is what `calculatePower` computes, including the wrapped bound at the smallest `int` |
| Chunker.FilterStatements | sonar-duplications/src/main/java/org/sonar/duplications/block/BlockChunker.java:91-105 | The two-index loop produces exactly `Collapse`: for each maximal run of equal values, its first statement and, if the run is longer than one, its last |
| Chunker.CollapseFrom | sonar-duplications/src/main/java/org/sonar/duplications/block/BlockChunker.java:91-105 | The filtered statements from index i on: each maximal run of equal values becomes its first statement, and also its last when longer than one. Its properties are the `Collapse*` lemmas below |
| Chunker.Collapse | sonar-duplications/src/main/java/org/sonar/duplications/block/BlockChunker.java:91-105 | What `filterStatements` returns for the whole input; `FilterStatements` is proved equal to it |
| Chunker.RunEnd | sonar-duplications/src/main/java/org/sonar/duplications/block/BlockChunker.java:95-99 | A run ends strictly after its start and within the input |
| Chunker.RunEndMaximal | sonar-duplications/src/main/java/org/sonar/duplications/block/BlockChunker.java:95-99 | Every statement of a run has the first one's value, and the statement after the run does not |
| Chunker.RunEndUnique | sonar-duplications/src/main/java/org/sonar/duplications/block/BlockChunker.java:95-99 | Any index where all values equal the first and the next one differs is the end of the run |
| Chunker.CollapseShorter | sonar-duplications/src/main/java/org/sonar/duplications/block/BlockChunker.java:91-105 | The filtered statements are never more than the input |
| Chunker.CollapseSubseq | sonar-duplications/src/main/java/org/sonar/duplications/block/BlockChunker.java:91-105 | The filtered statements keep input order: they form a subsequence of the input |
| Chunker.CollapseNoThreeEqual | sonar-duplications/src/main/java/org/sonar/duplications/block/BlockChunker.java:91-105 | No three consecutive filtered statements share a value, and the first input statement is always kept first |
| Chunker.CollapseKeepsLast | sonar-duplications/src/main/java/org/sonar/duplications/block/BlockChunker.java:91-105 | The input's last statement is always the last filtered statement |
| Chunker.CollapseIdempotent | sonar-duplications/src/main/java/org/sonar/duplications/block/BlockChunker.java:91-105 | Filtering twice is the same as filtering once |
| Chunker.HornerIsSum | sonar-duplications/src/main/java/org/sonar/duplications/block/BlockChunker.java:28-36 | The incremental (Horner) form of the hash equals the documented sum of code·31^(n-1-j) |
| Chunker.HornerCons | sonar-duplications/src/main/java/org/sonar/duplications/block/BlockChunker.java:126-128 | A window's first statement contributes its code times 31^(rest length), which is what the rolling hash subtracts |
| Chunker.WindowHashOnlyValues | sonar-duplications/src/main/java/org/sonar/duplications/block/BlockChunker.java:28-36 | Two windows whose statement values are equal element by element have the same hash, whatever their lines |
| Chunker.WrapMulAdd | sonar-duplications/src/main/java/org/sonar/duplications/block/BlockChunker.java:115-117 | Multiplying by 31 and adding in 64-bit arithmetic agrees with exact arithmetic modulo 2^64 |
| Chunker.WrapSubMul | sonar-duplications/src/main/java/org/sonar/duplications/block/BlockChunker.java:126-128 | Subtracting power·code in 64-bit arithmetic agrees with exact arithmetic modulo 2^64 |
| Chunker.InitializeHash | sonar-duplications/src/main/java/org/sonar/duplications/block/BlockChunker.java:107-113 | The initial hash is the polynomial over the first blockSize-1 filtered statements, modulo 2^64 |
| Chunker.UpdateHash | sonar-duplications/src/main/java/org/sonar/duplications/block/BlockChunker.java:115-117 | Appends a statement to the hash in 64-bit arithmetic; `RollIn` proves this gives the block hash of the window |
| Chunker.CreateBlock | sonar-duplications/src/main/java/org/sonar/duplications/block/BlockChunker.java:119-124 | A block with the caller's resource id, the hash, the index, the first statement's start line and the last statement's end line; `SlideBlocks` proves it is the window's expected block |
| Chunker.BlockChunker.RemoveFirstStatementFromHash | sonar-duplications/src/main/java/org/sonar/duplications/block/BlockChunker.java:126-128 | Subtracts power times the first statement's code in 64-bit arithmetic; `RollOut` proves this leaves the hash of the rest of the window |
| Chunker.RollIn | sonar-duplications/src/main/java/org/sonar/duplications/block/BlockChunker.java:115-117 | Adding the window's new last statement turns the hash of the window without it into the block hash |
| Chunker.RollOut | sonar-duplications/src/main/java/org/sonar/duplications/block/BlockChunker.java:126-128 | Removing the first statement's contribution leaves the polynomial over the rest of the window |
| Chunker.SlideHash | sonar-duplications/src/main/java/org/sonar/duplications/block/BlockChunker.java:75-86 | One loop iteration takes the hash over s[k..k+blockSize-2] to the hash over s[k+1..k+blockSize-1] |
| Chunker.SlideBlocks | sonar-duplications/src/main/java/org/sonar/duplications/block/BlockChunker.java:75-86 | The block appended at iteration k has index k, the window's first start line and last end line, the caller's resource id, and the window's polynomial hash |
| Chunker.BlockChunker.Chunk | sonar-duplications/src/main/java/org/sonar/duplications/block/BlockChunker.java:65-89 | With blockSize ≥ 1 (the source indexes out of range below that), the result is empty when fewer than blockSize statements remain after filtering. Otherwise it has exactly n-blockSize+1 blocks, and block k is the window starting at filtered statement k, with its index, its lines, the resource id and its hash |
| Chunker.BlockChunker.ChunkWindows | sonar-duplications/src/main/java/org/sonar/duplications/block/BlockChunker.java:72-88 | The sliding loop keeps the invariant "hash is the polynomial over the current window minus its last statement". It ends with one correct block per window |
| Chunker.ChunkingEqualWindows | sonar-duplications/src/main/java/org/sonar/duplications/block/BlockChunker.java:28-36 | In any chunking, two blocks whose windows hold equal values carry the same hash |
| RulesQuery.KeyNamed | server/sonar-web/src/main/js/apps/coding-rules/query.ts:35-56 | A name is mapped to the field of `Query` that carries it, and every field is found by its own name |
| RulesQuery.ParseAsInheritance | server/sonar-web/src/main/js/apps/coding-rules/query.ts:172-177 | Only the strings `INHERITED`, `NONE` and `OVERRIDES` parse, each to itself. Any other value, or absence, gives `undefined` |
| RulesQuery.SerializeInheritance | server/sonar-web/src/main/js/apps/coding-rules/query.ts:179-181 | `undefined` serializes to absence and nothing else does |
| RulesQuery.ParseQuery | server/sonar-web/src/main/js/apps/coding-rules/query.ts:79-102 | Builds all twenty fields of `Query`, each from its own URL key with its helper; `ParseReadsOnlyWireKeys` and the `Parse*Entry` lemmas state what it reads |
| RulesQuery.SerializeQuery | server/sonar-web/src/main/js/apps/coding-rules/query.ts:104-127 | Writes each field under the key it is read from, then cleans the object; `SerializeParseRoundTrip` relates it to `ParseQuery` |
| RulesQuery.AreQueriesEqual | server/sonar-web/src/main/js/apps/coding-rules/query.ts:129-131 | Compares two raw queries by their parsed forms; `AreQueriesEqualOnParsed` states that nothing else matters |
| RulesQuery.InheritanceRoundTrip | server/sonar-web/src/main/js/apps/coding-rules/query.ts:172-181 | Parsing a serialized inheritance gives it back, `undefined` included |
| RulesQuery.ParseReadsOnlyWireKeys | server/sonar-web/src/main/js/apps/coding-rules/query.ts:79-102 | `parseQuery` reads only its twenty keys: raw queries that agree on them parse the same |
| RulesQuery.AreQueriesEqualOnParsed | server/sonar-web/src/main/js/apps/coding-rules/query.ts:129-131 | `areQueriesEqual` depends on raw queries only through their parsed forms, on either side |
| RulesQuery.SerializeParseRoundTrip | server/sonar-web/src/main/js/apps/coding-rules/query.ts:79-127 | Each field is written under the key it is read from. So when the primitive helpers round-trip and `cleanQuery` keeps every key's value, parsing a serialized query gives it back |
| RulesQuery.ParseEntries | server/sonar-web/src/main/js/apps/coding-rules/query.ts:79-127 | Parsing the object `serializeQuery` builds, before cleaning, gives the query back when the primitive helpers round-trip |
| RulesQuery.ParseActivationEntry | server/sonar-web/src/main/js/apps/coding-rules/query.ts:81 | `activation` is read back from `activation` |
| RulesQuery.ParseActivationSeveritiesEntry | server/sonar-web/src/main/js/apps/coding-rules/query.ts:82 | `activationSeverities` is read back from `active_severities` |
| RulesQuery.ParseAvailableSinceEntry | server/sonar-web/src/main/js/apps/coding-rules/query.ts:83 | `availableSince` is read back from `available_since` |
| RulesQuery.ParseCompareToProfileEntry | server/sonar-web/src/main/js/apps/coding-rules/query.ts:84 | `compareToProfile` is read back from `compareToProfile` |
| RulesQuery.ParseCweEntry | server/sonar-web/src/main/js/apps/coding-rules/query.ts:85 | `cwe` is read back from `cwe` |
| RulesQuery.ParseInheritanceEntry | server/sonar-web/src/main/js/apps/coding-rules/query.ts:86 | `inheritance` is read back from `inheritance`, with no hypothesis on the helpers |
| RulesQuery.ParseLanguagesEntry | server/sonar-web/src/main/js/apps/coding-rules/query.ts:87 | `languages` is read back from `languages` |
| RulesQuery.ParseOwaspTop10Entry | server/sonar-web/src/main/js/apps/coding-rules/query.ts:88 | `owaspTop10` is read back from `owaspTop10` |
| RulesQuery.ParseOwaspTop10_2021Entry | server/sonar-web/src/main/js/apps/coding-rules/query.ts:89 | `owaspTop10-2021` is read back from `owaspTop10-2021` |
| RulesQuery.ParseProfileEntry | server/sonar-web/src/main/js/apps/coding-rules/query.ts:90 | `profile` is read back from `qprofile` |
| RulesQuery.ParseRepositoriesEntry | server/sonar-web/src/main/js/apps/coding-rules/query.ts:91 | `repositories` is read back from `repositories` |
| RulesQuery.ParseRuleKeyEntry | server/sonar-web/src/main/js/apps/coding-rules/query.ts:92 | `ruleKey` is read back from `rule_key` |
| RulesQuery.ParseSansTop25Entry | server/sonar-web/src/main/js/apps/coding-rules/query.ts:93 | `sansTop25` is read back from `sansTop25` |
| RulesQuery.ParseSearchQueryEntry | server/sonar-web/src/main/js/apps/coding-rules/query.ts:94 | `searchQuery` is read back from `q` |
| RulesQuery.ParseSeveritiesEntry | server/sonar-web/src/main/js/apps/coding-rules/query.ts:95 | `severities` is read back from `severities` |
| RulesQuery.ParseSonarsourceSecurityEntry | server/sonar-web/src/main/js/apps/coding-rules/query.ts:96 | `sonarsourceSecurity` is read back from `sonarsourceSecurity` |
| RulesQuery.ParseStatusesEntry | server/sonar-web/src/main/js/apps/coding-rules/query.ts:97 | `statuses` is read back from `statuses` |
| RulesQuery.ParseTagsEntry | server/sonar-web/src/main/js/apps/coding-rules/query.ts:98 | `tags` is read back from `tags` |
| RulesQuery.ParseTemplateEntry | server/sonar-web/src/main/js/apps/coding-rules/query.ts:99 | `template` is read back from `is_template` |
| RulesQuery.ParseTypesEntry | server/sonar-web/src/main/js/apps/coding-rules/query.ts:100 | `types` is read back from `types` |
| RulesQuery.ShouldRequestFacet | server/sonar-web/src/main/js/apps/coding-rules/query.ts:133-150 | True for exactly the thirteen facet names the page requests; the three lemmas below relate them to the fields of `Query` |
| RulesQuery.RequestedFacetsAreListFields | server/sonar-web/src/main/js/apps/coding-rules/query.ts:133-150 | Every requested facet is a list-valued field of `Query`, or `standard`, which is no field |
| RulesQuery.ListFieldsAreRequested | server/sonar-web/src/main/js/apps/coding-rules/query.ts:133-150 | Every list-valued field of `Query` is requested |
| RulesQuery.ScalarFieldsAreNotRequested | server/sonar-web/src/main/js/apps/coding-rules/query.ts:133-150 | No other field (`activation`, `inheritance`, `template`, `profile`, …) is requested |
| RulesQuery.StandardIsNoField | server/sonar-web/src/main/js/apps/coding-rules/query.ts:133-150 | `standard` is requested, yet names no field of `Query` |
| RulesQuery.GetServerFacet | server/sonar-web/src/main/js/apps/coding-rules/query.ts:152-154 | The facet name the server uses; `ServerFacetRenamesOne` states that only `activationSeverities` changes |
| RulesQuery.GetAppFacet | server/sonar-web/src/main/js/apps/coding-rules/query.ts:156-158 | The facet name the web app uses; `AppServerFacetRoundTrip` states it undoes `GetServerFacet` |
| RulesQuery.AppServerFacetRoundTrip | server/sonar-web/src/main/js/apps/coding-rules/query.ts:152-158 | Renaming a facet for the server and back gives every facet key back |
| RulesQuery.ServerFacetRenamesOne | server/sonar-web/src/main/js/apps/coding-rules/query.ts:152-154 | Only `activationSeverities` gets a different server name |
| RulesQuery.ServerFacetIsWireKey | server/sonar-web/src/main/js/apps/coding-rules/query.ts:152-154 | The server name of each list-valued facet is that field's URL key |
| RulesQuery.GetOpen | server/sonar-web/src/main/js/apps/coding-rules/query.ts:160-162 | Reads the `open` key; `OpenAndSelectedRead` states what it returns |
| RulesQuery.GetSelected | server/sonar-web/src/main/js/apps/coding-rules/query.ts:164-166 | Reads the `selected` key; `OpenAndSelectedRead` states what it returns |
| RulesQuery.OpenAndSelectedAreOwnKeys | server/sonar-web/src/main/js/apps/coding-rules/query.ts:160-166 | `open` and `selected` are none of the keys the codec reads |
| RulesQuery.OpenAndSelectedRead | server/sonar-web/src/main/js/apps/coding-rules/query.ts:160-166 | Values set under `open` and `selected` are what `getOpen` and `getSelected` return, and `parseQuery` does not see them |
| RulesQuery.HasRuleKey | server/sonar-web/src/main/js/apps/coding-rules/query.ts:168-170 | False when `rule_key` is absent or empty, true when it is a non-empty string |
| StandardFacet.Apply | server/sonar-web/src/main/js/apps/coding-rules/components/StandardFacet.tsx:175-199 | A change replaces exactly the properties it names |
| StandardFacet.StringLeTotalPreorder | server/sonar-web/src/main/js/apps/coding-rules/components/StandardFacet.tsx:189-191 | The string order used for sorting is total and transitive |
| StandardFacet.Without | server/sonar-web/src/main/js/apps/coding-rules/components/StandardFacet.tsx:190 | Removing a value keeps every other value and drops all of its own copies |
| StandardFacet.Toggle | server/sonar-web/src/main/js/apps/coding-rules/components/StandardFacet.tsx:188-193 | The new list holds the clicked value exactly when the old one did not, and then holds it once |
| StandardFacet.ToggleKeepsOthers | server/sonar-web/src/main/js/apps/coding-rules/components/StandardFacet.tsx:188-193 | Every other value keeps its number of occurrences |
| StandardFacet.ToggleSorted | server/sonar-web/src/main/js/apps/coding-rules/components/StandardFacet.tsx:189-191 | The new list is sorted ascending and is a permutation of the toggled list |
| StandardFacet.ToggleSortedContents | server/sonar-web/src/main/js/apps/coding-rules/components/StandardFacet.tsx:188-193 | After sorting, the clicked value is present iff it was absent, once if added, and every other value keeps its count |
| StandardFacet.SelectOnly | server/sonar-web/src/main/js/apps/coding-rules/components/StandardFacet.tsx:194-198 | A single-select click gives `[]` exactly when the value was the only selection, and `[itemValue]` otherwise |
| StandardFacet.HandleItemClick | server/sonar-web/src/main/js/apps/coding-rules/components/StandardFacet.tsx:185-199 | A click's change names only the clicked property |
| StandardFacet.ItemClickChangesOneKey | server/sonar-web/src/main/js/apps/coding-rules/components/StandardFacet.tsx:185-199 | After a click the other standards are unchanged. The clicked one is the sorted toggle (multi-select) or the single-select result |
| StandardFacet.HandleClear | server/sonar-web/src/main/js/apps/coding-rules/components/StandardFacet.tsx:175-183 | Clearing names the standards, both OWASP Top 10 lists, CWE and SonarSource security |
| StandardFacet.ClearEmptiesEveryKey | server/sonar-web/src/main/js/apps/coding-rules/components/StandardFacet.tsx:175-183 | After clearing, every standard's selection is empty |
| StandardFacet.Keys | server/sonar-web/src/main/js/apps/coding-rules/components/StandardFacet.tsx:242 | The categories are the statistics' keys, one per entry, in order |
| StandardFacet.ByCountThenNameTotalPreorder | server/sonar-web/src/main/js/apps/coding-rules/components/StandardFacet.tsx:327-331 | Descending count, then ascending displayed name, is a total preorder |
| StandardFacet.OwaspOrder | server/sonar-web/src/main/js/apps/coding-rules/components/StandardFacet.tsx:242 | The OWASP categories come in descending count, as a permutation of the statistics |
| StandardFacet.SonarSourceOrder | server/sonar-web/src/main/js/apps/coding-rules/components/StandardFacet.tsx:327-331 | The SonarSource categories come in descending count, ties by displayed name, as a permutation of the statistics |
| StandardFacet.OwaspOrderStable | server/sonar-web/src/main/js/apps/coding-rules/components/StandardFacet.tsx:242 | Categories with the same number of rules keep the statistics' order, as lodash's stable `sortBy` keeps it |
| StandardFacet.SonarSourceOrderStable | server/sonar-web/src/main/js/apps/coding-rules/components/StandardFacet.tsx:327-331 | Categories with the same number of rules and the same displayed name keep the statistics' order |
| StandardFacet.OwaspListing | server/sonar-web/src/main/js/apps/coding-rules/components/StandardFacet.tsx:229-287 | A spinner while the statistics are missing, "no results" exactly when there are none, and otherwise the categories of the statistics in descending count |
| StandardFacet.SortedKeysDistinct | server/sonar-web/src/main/js/apps/coding-rules/components/StandardFacet.tsx:327-331 | Sorting statistics with distinct keys gives distinct categories |
| StandardFacet.SonarSourceDisplay | server/sonar-web/src/main/js/apps/coding-rules/components/StandardFacet.tsx:333-342 | Expanded, everything is listed. Otherwise the first 15 categories come first, followed by exactly the selected categories past the 15th. The footer appears exactly when not all items are shown |
| StandardFacet.SonarSourceListing | server/sonar-web/src/main/js/apps/coding-rules/components/StandardFacet.tsx:319-331 | A spinner exactly while the statistics are missing |
| StandardFacet.DisplayKeepsOrder | server/sonar-web/src/main/js/apps/coding-rules/components/StandardFacet.tsx:333-340 | The shown categories keep the sorted order: they form a subsequence of it |
| StandardFacet.DisplayShowsSelected | server/sonar-web/src/main/js/apps/coding-rules/components/StandardFacet.tsx:333-340 | Every selected category in the list is shown, as often as it occurs in the list |
| StandardFacet.DisplayShowsSelectedOnce | server/sonar-web/src/main/js/apps/coding-rules/components/StandardFacet.tsx:333-340 | With distinct categories, every selected one is shown exactly once |
| StandardFacet.AllItemShownIff | server/sonar-web/src/main/js/apps/coding-rules/components/StandardFacet.tsx:333-342 | Everything counts as shown exactly when the list is expanded or every category past the 15th is selected. The display is then the whole list |
| StandardFacet.FooterCountBelowTotal | server/sonar-web/src/main/js/apps/coding-rules/components/StandardFacet.tsx:379-386 | The footer counts the shown categories out of the whole list, and its count is below its total |
| StandardFacet.ListingShowsSelectedOnce | server/sonar-web/src/main/js/apps/coding-rules/components/StandardFacet.tsx:319-342 | Once the statistics are in, every selected category that has statistics is shown exactly once |
| UserSession.UserUuid | server/sonar-webserver-auth/src/main/java/org/sonar/server/user/ServerUserSession.java:99-103 | There is a uuid exactly when there is a user that has one |
| UserSession.LoadGroups | server/sonar-webserver-auth/src/main/java/org/sonar/server/user/ServerUserSession.java:78-85 | Without a user there are no groups |
| UserSession.LoadGlobalPermissions | server/sonar-webserver-auth/src/main/java/org/sonar/server/user/ServerUserSession.java:331-343 | Without a user uuid, the global permissions are the anonymous ones |
| UserSession.LoadDbPermissions | server/sonar-webserver-auth/src/main/java/org/sonar/server/user/ServerUserSession.java:345-350 | Without a user uuid, an entity's database permissions are the anonymous ones |
| UserSession.LoadEntityPermissions | server/sonar-webserver-auth/src/main/java/org/sonar/server/user/ServerUserSession.java:261-275 | An entity's permissions for the user; `EntityPermissionCases` states the missing, private and public cases |
| UserSession.EntityPermissionCases | server/sonar-webserver-auth/src/main/java/org/sonar/server/user/ServerUserSession.java:261-275 | A missing entity grants nothing, and a private one exactly the database permissions. A public one grants exactly the public permissions plus the database ones |
| UserSession.PortfolioIsNoTechnicalProject | server/sonar-webserver-auth/src/main/java/org/sonar/server/user/ServerUserSession.java:248-254 | No component is both a portfolio and a technical project |
| UserSession.IsTechnicalProject | server/sonar-webserver-auth/src/main/java/org/sonar/server/user/ServerUserSession.java:248-250 | Qualifier `TRK` and scope `FIL` |
| UserSession.IsPortfolioOrSubPortfolio | server/sonar-webserver-auth/src/main/java/org/sonar/server/user/ServerUserSession.java:252-254 | Qualifier `VW` or `SVW` |
| UserSession.GetEntityUuid | server/sonar-webserver-auth/src/main/java/org/sonar/server/user/ServerUserSession.java:218-226 | Portfolios, sub-portfolios and technical projects resolve to their branch uuid. Any other component resolves to its branch's project, and fails exactly when the branch is missing |
| UserSession.ProjectsOfBranches | server/sonar-webserver-auth/src/main/java/org/sonar/server/user/ServerUserSession.java:292-294 | The projects are exactly those of the branches found in the database |
| UserSession.LoadChildProjectUuids | server/sonar-webserver-auth/src/main/java/org/sonar/server/user/ServerUserSession.java:277-296 | Loading an application's projects fails exactly when it has no main branch |
| UserSession.KeepEntitiesUuidsByPermission | server/sonar-webserver-auth/src/main/java/org/sonar/server/user/ServerUserSession.java:198-203 | The given entity uuids the database authorizes for the user, or for anonymous without a user uuid |
| UserSession.EntityUuids | server/sonar-webserver-auth/src/main/java/org/sonar/server/user/ServerUserSession.java:187-196 | The uuids are exactly those of the given entities |
| UserSession.ServerUserSession.constructor | server/sonar-webserver-auth/src/main/java/org/sonar/server/user/ServerUserSession.java:63-76 | A new session has empty caches, nothing loaded yet, and the given user and database |
| UserSession.ServerUserSession.GetLastSonarlintConnectionDate | server/sonar-webserver-auth/src/main/java/org/sonar/server/user/ServerUserSession.java:87-91 | Without a user there is no date |
| UserSession.ServerUserSession.GetLogin | server/sonar-webserver-auth/src/main/java/org/sonar/server/user/ServerUserSession.java:93-97 | There is a login exactly when there is a user |
| UserSession.ServerUserSession.GetUuid | server/sonar-webserver-auth/src/main/java/org/sonar/server/user/ServerUserSession.java:99-103 | The uuid is the user's uuid, absent without a user |
| UserSession.ServerUserSession.GetName | server/sonar-webserver-auth/src/main/java/org/sonar/server/user/ServerUserSession.java:105-109 | Without a user there is no name |
| UserSession.ServerUserSession.ShouldResetPassword | server/sonar-webserver-auth/src/main/java/org/sonar/server/user/ServerUserSession.java:119-122 | Only a user can be asked to reset a password |
| UserSession.ServerUserSession.IsLoggedIn | server/sonar-webserver-auth/src/main/java/org/sonar/server/user/ServerUserSession.java:124-127 | Logged in exactly when there is a login |
| UserSession.ServerUserSession.IsActive | server/sonar-webserver-auth/src/main/java/org/sonar/server/user/ServerUserSession.java:398-401 | The user's active flag, only for a logged-in session, since the source dereferences the user unconditionally |
| UserSession.ServerUserSession.AnonymousHasNoIdentity | server/sonar-webserver-auth/src/main/java/org/sonar/server/user/ServerUserSession.java:87-127 | An anonymous session has no login, uuid, name or date, is not asked to reset a password and has no groups |
| UserSession.ServerUserSession.GetGroups | server/sonar-webserver-auth/src/main/java/org/sonar/server/user/ServerUserSession.java:111-117 | The groups are the user's groups. They are loaded on the first call only and then kept |
| UserSession.ServerUserSession.HasPermissionImpl | server/sonar-webserver-auth/src/main/java/org/sonar/server/user/ServerUserSession.java:139-145 | A global permission is granted exactly when the database grants it. The permissions are loaded once and then kept |
| UserSession.ServerUserSession.IsSystemAdministrator | server/sonar-webserver-auth/src/main/java/org/sonar/server/user/ServerUserSession.java:390-405 | Administrator exactly when the global permissions include `admin`. After any call the answer is cached and the global permissions are loaded. The first call loads them and counts one computation; later calls return the cached answer and load nothing |
| UserSession.ServerUserSession.HasPermission | server/sonar-webserver-auth/src/main/java/org/sonar/server/user/ServerUserSession.java:256-259 | An entity permission is granted exactly when the entity's loaded permissions hold it. The entity is loaded on its first check only, so repeated checks agree |
| UserSession.ServerUserSession.ComponentUuidToEntityUuid | server/sonar-webserver-auth/src/main/java/org/sonar/server/user/ServerUserSession.java:147-163 | A cached component is answered without a lookup. An unknown one gives nothing and is not cached, a failed resolution is an error, and a resolved one is cached |
| UserSession.ServerUserSession.CachedComponentResolves | server/sonar-webserver-auth/src/main/java/org/sonar/server/user/ServerUserSession.java:147-163 | Every cached entry is what resolving the component in the database gives |
| UserSession.ServerUserSession.HasChildProjectsPermission | server/sonar-webserver-auth/src/main/java/org/sonar/server/user/ServerUserSession.java:170-175 | Fails when the application has no main branch. Otherwise it holds exactly when every child project is authorized |
| UserSession.ServerUserSession.KeepAuthorizedEntities | server/sonar-webserver-auth/src/main/java/org/sonar/server/user/ServerUserSession.java:187-196 | An entity is kept exactly when it was given and its uuid is authorized; nothing is added |
| UserSession.ServerUserSession.KeepAuthorizedEntitiesKeepsOrder | server/sonar-webserver-auth/src/main/java/org/sonar/server/user/ServerUserSession.java:187-196 | The kept entities are in input order, each as many times as in the input |
| UpdateFields.WithValue | server/sonar-webserver-webapi-v2/src/main/java/org/sonar/server/v2/common/model/UpdateField.java:37-39 | A field given a value is defined and holds that value, `null` included |
| UpdateFields.Undefined | server/sonar-webserver-webapi-v2/src/main/java/org/sonar/server/v2/common/model/UpdateField.java:41-43 | An undefined field is not defined and reads as `null` |
| UpdateFields.GetValue | server/sonar-webserver-webapi-v2/src/main/java/org/sonar/server/v2/common/model/UpdateField.java:45-48 | The stored value, `null` for an undefined field; `UndefinedReadsNull` and the factories state it |
| UpdateFields.IsDefined | server/sonar-webserver-webapi-v2/src/main/java/org/sonar/server/v2/common/model/UpdateField.java:50-52 | Whether the field was given; `FactoriesReachEveryField` ties it to the two factories |
| UpdateFields.FactoriesReachEveryField | server/sonar-webserver-webapi-v2/src/main/java/org/sonar/server/v2/common/model/UpdateField.java:28-52 | Every field is one the two factories build, rebuilt from what its getters report. Being a value, it never changes |
| UpdateFields.UndefinedReadsNull | server/sonar-webserver-webapi-v2/src/main/java/org/sonar/server/v2/common/model/UpdateField.java:45-52 | Only a defined field can hold a non-null value |
| UpdateFields.ApplyIfDefined | server/sonar-webserver-webapi-v2/src/main/java/org/sonar/server/v2/common/model/UpdateField.java:54-58 | A defined field hands its value to the consumer. An undefined one leaves the state alone |
| UpdateFields.ApplyIfDefinedCallsOnce | server/sonar-webserver-webapi-v2/src/main/java/org/sonar/server/v2/common/model/UpdateField.java:54-58 | The consumer is called exactly once, with the stored value, iff the field is defined, and never otherwise |
| UpdateFields.ToString | server/sonar-webserver-webapi-v2/src/main/java/org/sonar/server/v2/common/model/UpdateField.java:60-63 | Fails exactly when the value is `null`, and otherwise is the value's own text |
| UpdateFields.UndefinedToStringFails | server/sonar-webserver-webapi-v2/src/main/java/org/sonar/server/v2/common/model/UpdateField.java:41-63 | `toString` fails on every undefined field and on a field given `null` |
| DotNetPipeline.TemplatePullRequests | server/sonar-web/src/main/js/components/tutorials/bitbucket-pipelines/commands/DotNet.ts:49-56 | For any fixed text whose step reference does not end a line: the output with branches is the one without, followed by the pull-request block, and ends with it iff branches are enabled |
| DotNetPipeline.Template | server/sonar-web/src/main/js/components/tutorials/bitbucket-pipelines/commands/DotNet.ts:20-57 | The template over any fixed text with the same cuts; the `Template*` lemmas state where each argument lands |
| DotNetPipeline.DotNetExample | server/sonar-web/src/main/js/components/tutorials/bitbucket-pipelines/commands/DotNet.ts:20-57 | The template over the exact text; the lemmas below state its properties |
| DotNetPipeline.StartsWithImage | server/sonar-web/src/main/js/components/tutorials/bitbucket-pipelines/commands/DotNet.ts:25 | The output starts with the .NET 7 SDK image line |
| DotNetPipeline.ProjectKeyOccurs | server/sonar-web/src/main/js/components/tutorials/bitbucket-pipelines/commands/DotNet.ts:39 | `/k:"<projectKey>"` follows the fixed preamble of the `begin` command |
| DotNetPipeline.VariablesWrittenLiterally | server/sonar-web/src/main/js/components/tutorials/bitbucket-pipelines/commands/DotNet.ts:39 | The token and host arguments follow the project key as fixed text, whatever the arguments |
| DotNetPipeline.VariablesAreBitbucketReferences | server/sonar-web/src/main/js/components/tutorials/bitbucket-pipelines/commands/DotNet.ts:39-41 | That fixed text is `sonar.token=${SONAR_TOKEN}` and `sonar.host.url=${SONAR_HOST_URL}`: pipeline variable references, not interpolated values |
| DotNetPipeline.MainBranchUnderBranches | server/sonar-web/src/main/js/components/tutorials/bitbucket-pipelines/commands/DotNet.ts:45-48 | The pattern `'{<mainBranchName>}':` comes right after `pipelines:` / `branches:` |
| DotNetPipeline.PullRequestsBlockIff | server/sonar-web/src/main/js/components/tutorials/bitbucket-pipelines/commands/DotNet.ts:49-56 | The output for `false` is a prefix of the output for `true`, and the two differ exactly by the pull-request block. The output ends with that block iff branches are enabled |

## Left out

- Chunker.StringHashCode: runs the JDK's recurrence over Dafny characters, which are Unicode scalar values, while Java runs it over UTF-16 code units. A string with a character outside the Basic Multilingual Plane therefore hashes differently (one term instead of a surrogate pair).
- Chunker: the `Statement` and `Block` classes are not part of this model. They are plain datatypes, and a block's hash is kept as its `long` value instead of an 8-byte array.
- Chunker.BlockChunker.Chunk: requires `blockSize >= 1`, because the source throws for every smaller block size. When `length - blockSize + 1` fits in an `int`, the loop starts at index `blockSize - 1` and indexes out of range. Otherwise, as always at -2^31, that capacity of the result list wraps to a negative `int` and the list constructor rejects it first.
- RulesQuery.SerializeParseRoundTrip: holds only under the hypothesis that the primitive helpers round-trip and that `cleanQuery` keeps every key's value. `helpers/query` is not part of this model, so nothing is assumed about `parseAsArray`, `parseAsOptionalBoolean`, `parseAsDate`, `serializeDateShort`, `cleanQuery` or `queriesEqual`. Dates are opaque values.
- RulesQuery.RequestedFacetsAreListFields: the source checks membership in its thirteen names. The model states that list exactly, and the lemmas relate it to the fields of `Query`.
- StandardFacet.StringLe: compares Dafny characters (Unicode scalar values), while JavaScript's `<` compares UTF-16 code units. The two orders differ when a character outside the Basic Multilingual Plane meets one between U+E000 and U+FFFF.
- StandardFacet.OwaspOrder: the source sorts the keys of the statistics object, and the model sorts its entries and takes their keys. The two agree because an object's keys are distinct. JavaScript's key order is the order of the given sequence.
- StandardFacet: the React plumbing (`loadStandards` and its `mounted` flag, `setState`, JSX rendering) and `handleCWESearch` are not modelled. The last one depends on `renderCWECategory`, which is not part of this model. The `standards` state used for rendering names is the parameter `name`.
- UserSession: every database access is a read-only `Db` oracle, and opening and closing database sessions is not modelled.
- UserSession: the portfolio hierarchy (`hasPortfolioChildProjectsPermission`, `resolvePortfolioHierarchyComponents`, `getDirectChildComponents`, `findBranchUuids`, `findProjectUuids`, `getProjectUuids`) is not modelled. It walks a database tree the oracle does not describe.
- UserSession: `doKeepAuthorizedComponents` and `findComponentsByCopyComponentUuid` are not modelled; they concern components, not entities.
- UserSession: `getIdentityProvider` and `getExternalIdentity` are not modelled; they compute from classes that are not part of this model.
- UserSession: `hasEntityUuidPermission` (lines 165-168) only delegates to `hasPermission`, which is modelled.
- UserSession: `AbstractUserSession` is not part of this model; the administrator check goes straight to `HasPermissionImpl`.
- UserSession.LoadGlobalPermissions: global permissions are kept as their keys. `GlobalPermission` is not part of this model, so the exception `GlobalPermission.fromKey` throws on a key it does not know is not modelled: every key the database returns is taken as a permission.
- UserSession: the values of `UserRole`, `Qualifiers` and `Scopes` come from SonarQube's plugin API, which is not part of this model. The model uses the plugin API's documented keys.
- UserSession.LoadChildProjectUuids: copies without a `copyComponentUuid` are skipped. The source collects the `null` into its set of branch uuids, and the branch lookup then finds no branch for it, so the resulting projects are the same.
- UserSession.ServerUserSession.IsActive: requires a logged-in session, because the source dereferences the user unconditionally.
- UpdateFields.ToString: Java's `NullPointerException` is an `Err` result.
- DotNetPipeline: the template text is cut into pieces at its interpolations and its conditional. The properties are proved for any such text of the same shape, and then read off for the exact text.
