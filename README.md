# Peppol participant lookup and bulk loaders, modelled in Dafny

This project models the core of `my-peppol-api`, a Next.js service that answers whether a Peppol
participant (a `scheme:endpoint` identifier) is registered, and which document types it can
receive. The model covers:

- the participant lookup:
  - identifier normalisation (a stripped two-letter country prefix);
  - the directory multimap, keyed by lower-cased original and normalised ids;
  - the business-card line scanner;
  - the four-way case-insensitive match and document-type short-name extraction;
  - the exact database search and the alternative-scheme fallback;
  - `POST /api/check-participant`, with its five-minute cache over an injected clock;
- the listing API:
  - `parseDocumentTypes`;
  - filter reading, with alias order and empty strings turned into `undefined`;
  - `buildWhereClause`, with consecutive `$1..$n` placeholders;
  - paging arithmetic and the path dispatch of `GET /api/participants`;
  - the count route `GET /api/participants/count`;
- the in-memory `JSONDatabase`: the endpoint index built once, its lookups, and the singletons;
- the bulk loaders. For each one the model gives the per-row transform, the skip rules, the
  support flags, the dedup or overwrite policy, the batch buffering, and the placeholders
  `$(k·i+1)..$(k·i+k)` with the values aligned to them. The loaders are:
  - the XML business-card loader;
  - the enhanced atomic build;
  - the atomic build;
  - the JSON build;
  - the SQLite CSV import;
  - the master-table loader.

Databases, files, the directory CSV and the parsed XML cards are inputs to the model: sequences,
maps and `Option`s passed in.

Module layout:

- `Text`: ASCII case mapping, `split`, `trim`, `includes`, `indexOf`.
- `Seqs`: JS `Map` as an insertion-ordered list of entries, `new Set` dedup, chunking.
- `PeppolIds`: the `scheme:endpoint` split and the two document-identifier regexes as scanners.
- `Batch`: numbered placeholders and flattened values.
- `CsvRows`: the CSV rows the loaders read.
- One module per source file:
  - `ParticipantUtils`, `CheckParticipantRoute`;
  - `SqlFilters`, `ParticipantsRoute`, `CountRoute`;
  - `JsonDatabase`;
  - `BusinessCards`, `EnhancedBuild`, `AtomicBuild`, `BuildDatabase`, `ImportCsv`, `LoadAll`.

Where the repository's prose and its code disagree, the model follows the code:

- There is no five-stage resolution against the store. The route runs the exact lookup, and only
  on a miss the directory's alternative schemes (`CheckParticipantRoute.Answer`).
- `normalizeParticipantId` is not idempotent: "BEBE1" gives "BE1", which gives "1"
  (`ParticipantUtils.NormalizeNotIdempotent`).
- The whole-line fallback of the document-type parsers cannot be reached. Every line they parse
  contains `busdox-docid-qns::`, so the last-`::`-segment rule always applies
  (`PeppolIds.MarkedLineHasName`).
- `/countries` and `/schemes` still answer 400 for a bad page or limit. The paging check runs
  before the path dispatch (`ParticipantsRoute.GetPaging`).

## Model

| member | source | states |
|---|---|---|
| ParticipantUtils.NormalizeParticipantId | src/lib/participant-utils.js:5-21 | the loop over the ten country codes with its early return computes `Normalize`: the id minus its first two characters when they upper-case to a listed code, the id is longer than 2 and the upper-cased rest is all `[A-Z0-9]`; otherwise the id unchanged |
| ParticipantUtils.NormalizeChanges | src/lib/participant-utils.js:9-17 | normalisation changes the id if and only if it is longer than 2, starts with a listed code (any case) and the rest is ASCII letters and digits; a change drops exactly the first two characters |
| ParticipantUtils.NormalizeSuffix | src/lib/participant-utils.js:11-17 | the result is always a suffix of the input and at most one prefix (two characters) is removed; a changed result is non-empty |
| ParticipantUtils.NormalizeNotIdempotent | src/lib/participant-utils.js:11-17 | a second call can strip a second prefix: "BEBE1" gives "BE1", which gives "1" |
| ParticipantUtils.NormalizeLower | src/lib/participant-utils.js:9-15 | normalising then lower-casing equals lower-casing then normalising, so index keys do not depend on the case of the id |
| ParticipantUtils.ParseDirectoryIdSound | src/lib/participant-utils.js:34-38 | an accepted directory id yields a non-empty, colon-free scheme and identifier |
| ParticipantUtils.ParseDirectoryIdRoundTrip | src/lib/participant-utils.js:34-38 | `iso6523-actorid-upis::scheme:id` built from non-empty colon-free parts is accepted and parsed back to exactly those parts |
| ParticipantUtils.LoadParticipantList | src/lib/participant-utils.js:24-74 | the row loop that pushes into the `Map` of arrays builds `DirectoryIndex(rows)` |
| ParticipantUtils.DirectoryIndexMember | src/lib/participant-utils.js:32-67 | an entry is in the bucket of a key if and only if some directory row pushed exactly that entry under that key |
| ParticipantUtils.AcceptedRowPushes | src/lib/participant-utils.js:39-63 | an accepted row appends the original entry under `id.toLowerCase()`; it appends a second, normalised entry under the lower-cased normalised id only when normalisation changed the id and left it non-empty |
| ParticipantUtils.RowPushesAccepted | src/lib/participant-utils.js:39-63 | the original entry is always pushed, and the normalised entry is pushed if and only if normalisation changed the id |
| ParticipantUtils.IsMatchCaseInsensitive | src/lib/participant-utils.js:184-191 | the four-way match ignores the case of either id and is symmetric |
| ParticipantUtils.PrefixedMatchesBare | src/lib/participant-utils.js:184-191 | a listed country code followed by a non-empty alphanumeric id matches the bare id, in both directions |
| ParticipantUtils.KeptDocLineSpec | src/lib/participant-utils.js:197-237 | a kept document line carries the marker; its short name is the trimmed result of the pattern cascade on the cleaned line, neither empty nor "2.1"; its long name is the cleaned line |
| ParticipantUtils.RowDocTypesSpec | src/lib/participant-utils.js:197-237 | every parsed document type of a row satisfies the same rules |
| ParticipantUtils.FillSupported | src/lib/participant-utils.js:242-245 | the `forEach` fills exactly the set of lower-cased short names |
| ParticipantUtils.ProcessRow | src/lib/participant-utils.js:180-256 | processing a row resolves with `RowDetails` for it, or with nothing |
| ParticipantUtils.RowDetailsSpec | src/lib/participant-utils.js:180-256 | a row resolves if and only if it has an id and document types and matches the searched id; the details carry the row's id and a non-empty company name ("Unknown" by default), and a key is supported if and only if some parsed type lower-cases to it |
| ParticipantUtils.GetParticipantDetailsFromBusinessCards | src/lib/participant-utils.js:77-177 | the line state machine over the export computes `CardSearch`: nothing without a file, otherwise the first resolved row, including the row still open at the end |
| ParticipantUtils.StartCardRow | src/lib/participant-utils.js:105-130 | a header line flushes the open row and starts a new one from its first two `;` fields |
| ParticipantUtils.ReadHeaderDocTypes | src/lib/participant-utils.js:133-148 | a header line opens a multi-line document-type field, or reads a one-line field and flushes the row |
| ParticipantUtils.ContinueDocTypes | src/lib/participant-utils.js:149-161 | inside a field, a line up to a closing quote ends and flushes the row; any other line is appended after a newline |
| ParticipantUtils.CardSearchMatches | src/lib/participant-utils.js:77-256 | whatever the business-card search resolves with belongs to a row matching the searched id |
| ParticipantUtils.ScanFirstWins | src/lib/participant-utils.js:107-170 | once a row has resolved, later lines never change the answer: the first resolve wins |
| ParticipantUtils.StepKeepsFound | src/lib/participant-utils.js:99-161 | one line of input never replaces an answer already found |
| ParticipantUtils.SearchInDatabase | src/lib/participant-utils.js:259-315 | the exact database search computes `DatabaseSearch` over the abstract store |
| ParticipantUtils.DatabaseSearchSpec | src/lib/participant-utils.js:259-315 | found if and only if the store holds the full pid; a hit is `direct`; `supportsDocumentType` is null exactly when no type is asked; it is the lower-cased lookup (false if absent) with business-card details, and without them `supports_invoice` for exactly "Invoice" and `supports_creditnote` for any other type; a miss has no response |
| ParticipantUtils.DatabaseSearchEchoesIds | src/lib/participant-utils.js:264-269 | for `scheme:id` with colon-free parts, a hit reports exactly that scheme and id |
| ParticipantUtils.SearchAlternativeSchemes | src/lib/participant-utils.js:318-372 | the key loop with its `concat` computes `AlternativeSearch` |
| ParticipantUtils.AlternativeSearchShape | src/lib/participant-utils.js:318-372 | found if and only if the lower-cased or the lower-cased normalised id has a bucket; found answers are `alternative_schemes` with scheme "unknown"; otherwise `not_found` with no alternatives; `supportsDocumentType` is false either way; the alternatives have distinct full ids |
| ParticipantUtils.AlternativeSearchSound | src/lib/participant-utils.js:318-372 | every alternative offered is a directory row, parsed to its scheme and id, whose id matches the searched one, with `originalId` equal to the id |
| ParticipantUtils.AlternativeSearchComplete | src/lib/participant-utils.js:318-372 | every directory row whose id matches the searched one is offered, under its full id |
| CheckParticipantRoute.CheckParticipant.Post | src/app/api/check-participant/route.js:15-52 | a missing scheme or id answers 400 and leaves the cache alone; otherwise the cache is refreshed first, and the answer is the direct hit or else the alternative search over the refreshed cache |
| CheckParticipantRoute.CheckParticipant.constructor | src/app/api/check-participant/route.js:10-12 | no database handle, no cache, timestamp 0 |
| CheckParticipantRoute.CacheWindow | src/app/api/check-participant/route.js:33-38 | a cache loaded at `t` is served unchanged up to `t + 300000` ms (`CACHE_DURATION`, five minutes), whatever the directory does meanwhile, and replaced by the current directory strictly after |
| CheckParticipantRoute.FirstRequestLoads | src/app/api/check-participant/route.js:34-37 | with no cache, the directory is loaded and stamped with the current time |
| CheckParticipantRoute.DirectHitWins | src/app/api/check-participant/route.js:41-45 | a database hit answers `direct` with no alternatives, whatever the directory holds |
| CheckParticipantRoute.MissFallsBack | src/app/api/check-participant/route.js:47-51 | a miss answers with the alternative search, found or not, never `direct` and never claiming support |
| CheckParticipantRoute.AnswerAlternativesMatch | src/app/api/check-participant/route.js:41-51 | every alternative the route offers is a directory row whose id matches the requested one |
| SqlFilters.FirstNonEmpty | src/app/api/participants/count/route.js:123-139 | the first alias with a non-empty value wins; none means none is non-empty |
| SqlFilters.FiltersFromQuery | src/app/api/participants/count/route.js:123-139 | after `||` and the empty-to-undefined pass, each text filter is its first non-empty alias in the source's order; a boolean filter is set exactly when its parameter is non-empty, to whether it reads "true" |
| SqlFilters.ActiveSpec | src/app/api/participants/route.js:93-148 | the fields that get a condition are exactly the set ones, in the fixed order country, scheme, company, invoice, credit note, document type, start, end |
| SqlFilters.BuildWhereClause | src/app/api/participants/route.js:93-154 | the eight counter-and-push blocks produce the clause and values of the set fields in the fixed order |
| SqlFilters.WhereClauseSpec | src/app/api/participants/route.js:93-154 | the clause is empty if and only if no filter is set; otherwise it names exactly `$1..$n` for its `n` values, and value `k` belongs to the `k`-th set field |
| SqlFilters.ConditionsOfShape | src/app/api/participants/route.js:98-148 | condition `i` is the `(i+1)`-th set field's condition under placeholder `$(i+1)` |
| SqlFilters.ValuesOfShape | src/app/api/participants/route.js:98-148 | value `i` is the value of the `(i+1)`-th set field |
| SqlFilters.ConditionParamsOf | src/app/api/participants/route.js:128-136 | the document-type condition names its one placeholder three times; every other condition names its placeholder once |
| SqlFilters.PlaceholderText | src/app/api/participants/route.js:98-148 | distinct placeholder numbers render to distinct `$k` text |
| ParticipantsRoute.CollectStructured | src/app/api/participants/route.js:28-48 | the `forEach` over the decoded array keeps its trimmed non-empty strings in order; a parse failure or a non-array gives nothing |
| ParticipantsRoute.ParseDocumentTypes | src/app/api/participants/route.js:25-90 | the pushes compute `DocumentTypes(p)` |
| ParticipantsRoute.BaseTypesSpec | src/app/api/participants/route.js:28-80 | the structured names are exactly the trimmed non-empty strings of the array; the raw column is used only when they are none |
| ParticipantsRoute.RawTypesSpec | src/app/api/participants/route.js:50-77 | every raw name comes from a marker line, is the trimmed cascade result on the cleaned line, and is neither empty nor "2.1" |
| ParticipantsRoute.DocumentTypesSpec | src/app/api/participants/route.js:82-89 | the list has no duplicates; it holds the base names, plus "Invoice" or "CreditNote" exactly when flagged and no base name equals it ignoring case; a set flag is always reflected by some entry; the deduplicated base names come first, and every name keeps the place of its first occurrence |
| ParticipantsRoute.TotalPagesSpec | src/app/api/participants/route.js:162-216 | `totalPages` is the ceiling: that many pages hold every row and one fewer does not; page `p` starts inside the rows exactly when `p <= totalPages` |
| ParticipantsRoute.ListingSpec | src/app/api/participants/route.js:157-193 | the count query binds the filter values to `$1..$n`; the page query names `$1..$n+2`, with `$(n+1)` the limit and `$(n+2)` the offset `(page-1)·limit` |
| ParticipantsRoute.GetPaging | src/app/api/participants/route.js:338-350 | a page below 1 or a capped limit below 1 answers 400 before any dispatch; every page served has page ≥ 1 and limit in 1..1000 |
| ParticipantsRoute.GetByCountry | src/app/api/participants/route.js:411-440 | an empty code after `/by-country/` answers 400; otherwise the code overrides the country filter and the other filters are kept |
| ParticipantsRoute.GetDefaultListing | src/app/api/participants/route.js:442-460 | the default listing runs on the query's filters, read alias by alias as lines 353-369 read them |
| CountRoute.NoFilterParamsIff | src/app/api/participants/count/route.js:123-139 | no filter parameter is given if and only if the cleaned filters set no field |
| CountRoute.CountQuerySpec | src/app/api/participants/count/route.js:84-99 | with no filter parameter the count query has no WHERE clause and no values, and only then; its placeholders are exactly `$1..$n` for its `n` values |
| CountRoute.CountValues | src/app/api/participants/count/route.js:32-70 | the country is bound upper-cased, company and document type wrapped in `%`, and a boolean filter whenever its parameter is non-empty, false included |
| CountRoute.CountDocTypeOnePlaceholder | src/app/api/participants/count/route.js:62-70 | a document-type filter binds one value, and its condition names that value's placeholder three times |
| JsonDatabase.IndexBuckets | src/lib/json-database.js:35-45 | the bucket of a key is the records with that lower-cased endpoint, in data order; a present key has a non-empty bucket |
| JsonDatabase.RecordBucket | src/lib/json-database.js:35-45 | each record lies in the bucket of a key if and only if the key is its lower-cased endpoint, so it lands in exactly one bucket |
| JsonDatabase.FindFirst | src/lib/json-database.js:48-51 | a result is a record with exactly that full pid and none comes before it; no result means no record has it |
| JsonDatabase.DataLoader.LoadJSONData | src/lib/json-database.js:5-18 | cached data is returned unchanged; while the cache is empty the import is retried, and a failed import gives `[]` (`LoadedData`) |
| JsonDatabase.JSONDatabase.constructor | src/lib/json-database.js:21-25 | empty data and index, not initialised |
| JsonDatabase.JSONDatabase.BuildIndex | src/lib/json-database.js:35-45 | the `forEach` rebuilds the index as `EndpointIndexOf(data)` and changes nothing else |
| JsonDatabase.JSONDatabase.Initialize | src/lib/json-database.js:27-33 | the first call loads the data (the cached records if any, otherwise the imported ones, otherwise `[]`) and builds its index; later calls change nothing; afterwards the index always matches the data |
| JsonDatabase.JSONDatabase.FindByFullPid | src/lib/json-database.js:48-51 | after initialising, the first record with that full pid; a first call searches the data it loaded |
| JsonDatabase.JSONDatabase.FindByEndpointId | src/lib/json-database.js:54-58 | the records whose endpoint equals the argument ignoring case, `[]` when none; a first call searches the data it loaded |
| JsonDatabase.JSONDatabase.FindBySchemeAndEndpoint | src/lib/json-database.js:61-64 | the same as looking up `scheme:endpoint` by full pid; a first call searches the data it loaded |
| JsonDatabase.JSONDatabase.GetAllData | src/lib/json-database.js:67-70 | the loaded data: on a first call, the cached records if any, otherwise the imported ones |
| JsonDatabase.Singleton.GetJSONDatabase | src/lib/json-database.js:74-81 | the first call creates a fresh uninitialised database; every later call returns that same instance |
| PeppolIds.SplitPidSound | scripts/atomic-build.js:102-105 | a split value yields non-empty, colon-free scheme and endpoint, and the value starts with `scheme:endpoint` |
| PeppolIds.SplitPidRoundTrip | src/scripts/enhanced-atomic-build.js:166 | re-splitting a full pid built from colon-free parts gives the parts back |
| PeppolIds.VersionedMatchIff | src/lib/participant-utils.js:206-210 | the scanner for `/::([A-Za-z]+)-2::([A-Za-z]+)##/` matches at a position with capture `y` if and only if the text there is `::`, letters, `-2::`, `y` (letters) and `##` |
| PeppolIds.PlainMatchIff | src/lib/participant-utils.js:213-216 | the scanner for `/::([A-Za-z]+)##/` matches at a position with capture `x` if and only if the text there is `::`, `x` (letters) and `##` |
| PeppolIds.FirstMatchFrom | src/lib/participant-utils.js:206-216 | the leftmost match at or after a position, with no match before it |
| PeppolIds.MarkedLineHasName | src/lib/participant-utils.js:198-227 | a line carrying the marker still contains `::` after cleaning, so the cascade always yields a name and the whole-line fallback is never reached |
| BusinessCards.KeywordOf | src/scripts/BusinessCards.js:72-77 | the first of CrossIndustryInvoice, ApplicationResponse, Order, Catalogue contained in the value, or none when none is |
| BusinessCards.ExtractDocumentType | src/scripts/BusinessCards.js:58-78 | an empty value gives null; every result is non-empty |
| BusinessCards.VersionedWins | src/scripts/BusinessCards.js:62-64 | when a versioned `::X-2::Y##` occurs, the result is the capture of a versioned occurrence at or before it |
| BusinessCards.PlainBeforeKeywords | src/scripts/BusinessCards.js:67-69 | when a plain `::X##` occurs, the result is a plain capture at or before it, never a keyword |
| BusinessCards.KeywordFallback | src/scripts/BusinessCards.js:72-77 | with no plain match anywhere, the result is the keyword fallback |
| BusinessCards.CompanyName | src/scripts/BusinessCards.js:145-154 | the first name's `@_name` or "Unknown", always non-empty; the empty name list is the case where the source throws and the card is skipped |
| BusinessCards.TransformCardKey | src/scripts/BusinessCards.js:121-142 | a card is kept if and only if its value splits into a non-empty scheme and endpoint and its names do not throw; the key is `scheme:endpoint` |
| BusinessCards.TransformCardTypes | src/scripts/BusinessCards.js:157-187 | `document_types` is the extracted names without duplicates, in the order of their first occurrence; the raw text is all of them joined with ", "; the flags hold exactly when some name contains "invoice" / "creditnote" ignoring case |
| BusinessCards.CrossIndustryInvoiceIsInvoice | src/scripts/BusinessCards.js:182-184 | a card whose only type is CrossIndustryInvoice supports invoices |
| BusinessCards.CardsLastWins | src/scripts/BusinessCards.js:178 | the map has unique keys, and each key holds the last card with that full pid |
| BusinessCards.ParseCards | src/scripts/BusinessCards.js:117-206 | the card loop builds `SetAll(cards, TransformCard)`; `processedCount` counts the kept cards and `processedCount + skippedCount` is the number of cards |
| BusinessCards.FinalBuild | src/scripts/BusinessCards.js:237-284 | no data is an error; otherwise the statements for chunks of 1000 entries with 10 columns |
| BusinessCards.FinalBuildAligned | src/scripts/BusinessCards.js:269-284 | batch row `i` gets `$10i+1..$10i+10` and value `10i+j` is column `j` of entry `i` |
| Batch.PlaceholdersConsecutive | scripts/atomic-build.js:184-187 | the placeholders of `n` rows of `k` columns are exactly `$1..$kn`, in order |
| Batch.ValuesAligned | scripts/atomic-build.js:189-196 | with `k` values per row, value `k·i+j` of the flattened batch is column `j` of row `i` |
| Batch.BuildBatch | src/scripts/enhanced-atomic-build.js:162-180 | the `forEach` pushing placeholders and values produces `Placeholders` and `BatchValues` |
| Batch.SendAll | src/scripts/enhanced-atomic-build.js:160-190 | the `i += batchSize` loop sends the statements of the size-limited chunks, in order |
| Batch.StatementsSendAll | src/scripts/enhanced-atomic-build.js:160-190 | together the statements bind every entry's values exactly once, in order |
| CsvRows.TrimmedRule | scripts/build-database.js:80-83 | the whitespace test adds only one rule to the plain one: a blank scheme is skipped |
| EnhancedBuild.EnhancedRecordSpec | src/scripts/enhanced-atomic-build.js:60-109 | a row is kept if and only if scheme and value are present and the value splits into two non-empty parts; the key is `scheme:endpoint` of colon-free parts; the raw field and the name are stored as read; no type is empty or "2.1"; the flags hold exactly when some name equals "invoice" / "creditnote" ignoring case |
| EnhancedBuild.ParseBusinessCardsData | src/scripts/enhanced-atomic-build.js:47-121 | the row handler builds `SetAll(rows, EnhancedRecord)` |
| EnhancedBuild.LaterRowWins | src/scripts/enhanced-atomic-build.js:103-109 | unique keys, each holding the last row with that full pid |
| EnhancedBuild.EnhancedStatements | src/scripts/enhanced-atomic-build.js:157-190 | the statements for chunks of 100 entries with 7 columns |
| EnhancedBuild.ColumnsRecoverParts | src/scripts/enhanced-atomic-build.js:166-179 | re-splitting a stored key gives back the scheme and endpoint the row was split into |
| EnhancedBuild.EnhancedAligned | src/scripts/enhanced-atomic-build.js:165-180 | batch row `i` gets `$7i+1..$7i+7`, value `7i+j` is column `j` of entry `i` |
| AtomicBuild.AtomicRecordSpec | scripts/atomic-build.js:95-122 | a kept record is keyed `scheme:endpoint` with non-empty parts; each flag holds if and only if the raw field contains "Invoice-2::Invoice" / "CreditNote-2::CreditNote"; the company name is non-empty and is the Names column when that is given |
| AtomicBuild.UniqueSpec | scripts/atomic-build.js:107-109 | kept records have distinct full pids, cover every accepted pid, and each is the first accepted row with its pid |
| AtomicBuild.Builder.constructor | scripts/atomic-build.js:81-84 | nothing buffered, seen or sent |
| AtomicBuild.Builder.OnData | scripts/atomic-build.js:93-105 | the builder's invariant is kept; the row's record is kept exactly when the row has a usable id whose key was not seen, and any other row changes nothing |
| AtomicBuild.Builder.Keep | scripts/atomic-build.js:107-128 | a record with a seen key is dropped; otherwise it is appended to the kept records, its key remembered, and a flush sends exactly the buffered batch plus the record; the sent batches stay full, the buffer short, and sent plus buffer equal the kept records |
| AtomicBuild.Builder.OnEnd | scripts/atomic-build.js:134-138 | at end of input the batches sent are the chunks of 500 of the kept records |
| AtomicBuild.BuildDatabase | scripts/atomic-build.js:81-142 | the whole stream sends `Chunks(Unique(rows), 500)` |
| AtomicBuild.ProcessBatchSpec | scripts/atomic-build.js:181-196 | an empty batch does nothing; otherwise placeholders `$1..$6n`, value `6i+j` is column `j` of row `i`, and the raw document types never reach the values |
| BuildDatabase.ProcessCsvToJson | scripts/build-database.js:58-108 | the handler pushes one record per kept row, in input order |
| BuildDatabase.ComparedWithAtomic | scripts/build-database.js:77-97 | a row is kept exactly when the atomic build keeps it and its scheme is not blank; the ids, name and raw text agree; each flag holds if and only if the atomic flag holds or the raw field names the UBL Invoice-2 / CreditNote-2 namespace |
| BuildDatabase.ResultsPerRow | scripts/build-database.js:63-97 | one result per kept row and no dedup: the results are exactly the records of the kept rows |
| ImportCsv.ImportTupleSpec | src/lib/import-csv.js:37-50 | an accepted tuple is keyed `scheme:endpoint` with non-empty parts, and each flag is 1 if the raw field contains "Invoice-2::Invoice" / "CreditNote-2::CreditNote" and 0 otherwise |
| ImportCsv.FlushAligned | src/lib/import-csv.js:53-57 | a flush of `n` tuples has `5n` question marks and `5n` values |
| ImportCsv.Importer.OnData | src/lib/import-csv.js:35-48 | the importer's invariant is kept; an accepted row appends its tuple, any other row changes nothing |
| ImportCsv.Importer.Push | src/lib/import-csv.js:50-58 | the tuple is appended and counted, and a flush writes exactly the buffer plus the tuple; the flushes stay full, the buffer short, and flushes plus buffer equal the tuples read |
| ImportCsv.Importer.OnEnd | src/lib/import-csv.js:64-68 | at end of input the flushes are the chunks of 500 of the accepted tuples, and `rowCount` is their number |
| ImportCsv.ImportPeppolCsv | src/lib/import-csv.js:6-76 | the statements flush the chunks of 500 of the accepted tuples, and `rowCount` counts them |
| ImportCsv.TableLastWins | src/lib/import-csv.js:55 | INSERT OR REPLACE leaves, for each pid, the last tuple with it |
| ImportCsv.TableKeys | src/lib/import-csv.js:55 | the table's keys are exactly the pids of the tuples |
| ImportCsv.ChunkedTable | src/lib/import-csv.js:53-68 | flushing in chunks leaves the same table as inserting every tuple in order |
| LoadAll.MasterRecordSpec | src/scripts/loadAllParticipants.js:80-98 | an accepted id starts with the directory prefix; its row carries the id, non-empty colon-free scheme and endpoint joined into `scheme:endpoint`, and as country the first two endpoint characters (one for a one-character endpoint), upper-cased |
| LoadAll.MasterRecordRoundTrip | src/scripts/loadAllParticipants.js:81-90 | a directory id built from colon-free parts is loaded with exactly those parts |
| LoadAll.BatchStatementAligned | src/scripts/loadAllParticipants.js:105-112 | `5n` values, value `5i+j` is column `j` of row `i`, and placeholders `$1..$5n` |
| LoadAll.Loader.OnData | src/scripts/loadAllParticipants.js:78-91 | the loader's invariant is kept; an accepted id appends its row, any other id changes nothing |
| LoadAll.Loader.Push | src/scripts/loadAllParticipants.js:92-122 | the row is appended; a flush inserts exactly the buffered batch plus the row; the inserted batches stay full, the buffer short, inserted plus buffered equal the rows read, and `processed` stays 500 per successful batch |
| LoadAll.Loader.OnEnd | src/scripts/loadAllParticipants.js:128-143 | the remainder is inserted row by row and `processed` grows by the successful inserts |
| LoadAll.LoadAllParticipants | src/scripts/loadAllParticipants.js:68-148 | the batches and the remainder together are the accepted rows in order and are exactly their slices of 500; every batch has 500 rows and the remainder fewer; `processed` is 500 per successful batch plus 1 per successful single insert |
| Seqs.BatchedPush | src/lib/import-csv.js:50-58 | pushing one element and flushing the buffer once it holds 500 keeps the flushed batches full, the buffer short, and flushed batches plus buffer equal to everything read, in order |
| Seqs.BatchedEnd | src/lib/import-csv.js:64-68 | full batches followed by a non-empty remainder are exactly the slices of 500 of everything read |
| Seqs.UpsertProperties | src/scripts/enhanced-atomic-build.js:103 | `Map.set` keeps keys unique, binds the key to the new value, leaves other keys alone and keeps every key's position |
| Seqs.DedupProperties | src/app/api/participants/route.js:89 | `[...new Set(xs)]` keeps exactly the elements of `xs`, without duplicates, in the order of their first occurrence |
| Seqs.ChunksProperties | src/scripts/BusinessCards.js:264-265 | the slices of `i += batchSize` concatenate back to the entries, and all but the last are full |

## Left out

- Database access is not modelled: connections, SQL execution, table creation, the DROP/RENAME swaps and index creation. Stores are maps and statements are returned as values.
- File downloads, file streams, the XML parser and the CSV parser are not modelled. The model starts from their rows or parsed cards, with a missing column read as "".
- `JSON.parse` and `JSON.stringify` are not modelled. A parse is an input that may fail, and stringified columns are cells holding the list.
- The regular-expression engine is replaced by explicit scanners for the two fixed patterns, over ASCII letters.
- Case mapping and `trim` cover ASCII only. JavaScript's full Unicode mapping, which can change string length, is out.
- `parseInt` giving NaN for page or limit is not modelled. Page and limit are integers already parsed; a NaN would slip past the `< 1` check.
- Concurrency is not modelled. Un-awaited `processBatch` calls, async stream handlers and repeated `resolve` calls all run in order, and the first resolve wins.
- Logging, progress output, statistics queries and percentages are left out.
- The one-by-one retry after a failed batch in the atomic build is left out.
- The `totalProcessed` counter in the atomic build is never incremented and only feeds a log line, so it is left out.
- The errors thrown by database calls are left out. `searchInDatabase`'s catch-all miss is the same as a store without the key.
- `/countries`, `/schemes` and the count endpoint of the listing route return database results. The model stops at the dispatch decision and the query it would send.
- JavaScript object keys such as `__proto__` in `supportedDocumentTypes` are not modelled. The supported types are a set.
- JsonDatabase.EndpointIndexOf, JsonDatabase.JSONDatabase.BuildIndex and JsonDatabase.JSONDatabase.FindByEndpointId model the endpoint index as a map, not as a plain JavaScript object. The inherited keys that are already lower case, "constructor" and "__proto__", are not modelled. In the JavaScript, a record whose lower-cased endpoint id is such a key makes `buildIndex` throw on `.push`, so `initialize` rejects and the database stays uninitialised; and `findByEndpointId` with such a key returns the inherited value instead of `[]`.
- The XML card fields `@_countrycode` and `regdate` are opaque values carried through.
- Numeric XML attributes produced by `parseAttributeValue` are not modelled. Attribute values are strings.
- ParticipantUtils.GetParticipantDetailsFromBusinessCards: chunk boundaries are not modelled. The whole file text is scanned as one buffer, so the unterminated last line is never processed, as in the source.
