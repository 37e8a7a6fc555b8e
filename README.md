# FHIR bundle upload and ActivityDefinition generators, in Dafny

This project models the EPA Bienestar FHIR tooling. It covers two parts.

The first part is the upload script, `fhir-bundles/upload-bundles.ts`. It walks the bundles directory in a fixed group order. Each JSON document becomes a FHIR transaction bundle. Every entry whose resource has a `resourceType` loses the resource's `id`. Such a resource with a canonical `url` becomes a conditional update, `PUT ResourceType?url=<encoded url>`; one without a `url` becomes a `POST`. An entry whose resource has no `resourceType` is passed on unchanged, with its `id` and its request; the dry-run check reports such entries when they lack a request url or still carry an id. The bundle is then either checked (dry run) or submitted through the FHIR client's batch call. Submission retries network and server errors with exponential backoff, and each file's per-entry response statuses are inspected. The run records exactly one result per file and exits with failure when any file failed.

The second part is the two generator scripts, which turn a table of study definitions into ActivityDefinition resources:

- `activity-definitions/imaging/generate-imaging.js` derives each `name` from the id with `toPascalCase`.
- `activity-definitions/high-complexity/generate.js` looks up the specialty's SNOMED CT concept in a five-entry table.

The modules:

- `Wrappers`: `Option` and `Result`.
- `JsStrings`: the JavaScript built-ins the scripts rely on. These are `startsWith`, `endsWith`, `includes`, `split` and `join` on a one-character separator, and the default `sort` of strings. `startsWith` and `endsWith` are characterised by concatenation (`s == prefix + t`, `s == t + suffix`). `includes` is proved against an occurrence, `split` against `join`, and `sort` against sortedness plus permutation, a pair that determines the result.
- `Fhir`: JSON resources and entries. `Resource` is a class because the upload script deletes `id` from the parsed object in place.
- `Normalize`: `prepareEntryForMedplum` and `toTransactionBundle`. Both are imperative methods over `Resource` objects (fresh ones, in `ToTransactionBundle`), each proved against a value-level function (`Prepared`, `NormalizeDocument`).
- `Retry`: `isRetryableError` and `uploadWithRetry`. The retry loop is proved against a recursive specification `RetrySpec`.
- `Discovery`: `findJsonFiles` and `groupFilesByUploadOrder`, over an abstract directory tree.
- `Upload`: the per-file body and the nested loops of `main`, proved against `FileOutcome` and `Steps`, plus the run summary.
- `ActivityDefinitions`: the resource both generators emit, what they have in common, and the write loop they share.
- `Imaging` and `HighComplexity`: the two generators.

Collaborators are parameters:

- `encode` is `encodeURIComponent`.
- `exec(file, n)` is the outcome of the n-th batch execution of that file's bundle.
- `read(file)` is what reading and parsing the file yields.
- `hasCredentials` says whether both client credentials are set.
- Sleeps are recorded in milliseconds instead of being taken.
- File writes become the returned list of (file name, resource) pairs.

Some facts about the upload script that the model keeps:

- The upload script has no identifier sanitizer and does not repair malformed `urn:uuid` full URLs.
- It always deletes `id` from a resource that has a `resourceType`.
- It never builds a `PUT ResourceType/id` for a typed resource; untyped transaction entries keep the request the file gives them. The `PUT ResourceType/<id>` request that `toTransactionBundle` builds for a lone resource is discarded by `prepareEntryForMedplum`, which turns it into a conditional `PUT` or a `POST` (`Normalize.PreparedIgnoresRequest`).
- Missing credentials are not the only condition that ends a run early. A named group that exists but is not a directory makes `readdirSync` throw outside the per-file `try`, and the run ends through `main().catch` with exit status 1. This is `RunOutcome.Fatal`.

The two generators give the same SNOMED code for pulmonology but different displays. The imaging table says "Pulmonology", while the high-complexity lookup says "Pulmonary medicine" (`HighComplexity.PulmonologyDisplaysDiffer`).

## Model

| member | source | states |
|---|---|---|
| JsStrings.Includes | fhir-bundles/upload-bundles.ts:216-220 | `message.includes(pattern)` is true exactly when the pattern occurs at some position of the message |
| JsStrings.AbsentCharBlocks | fhir-bundles/upload-bundles.ts:217 | a pattern holding a character the message lacks does not occur in it |
| JsStrings.CountChar | fhir-bundles/activity-definitions/imaging/generate-imaging.js:10 | the hyphen count is at most the length, and zero exactly when there is no hyphen |
| JsStrings.Split | fhir-bundles/activity-definitions/imaging/generate-imaging.js:10 | `split('-')` gives one more piece than there are hyphens, no piece holds a hyphen, and joining the pieces with '-' gives the string back |
| JsStrings.SplitWithoutSeparator | fhir-bundles/activity-definitions/imaging/generate-imaging.js:10 | a string without a hyphen splits into itself alone |
| JsStrings.SplitAtFirst | fhir-bundles/activity-definitions/imaging/generate-imaging.js:10 | the text before the first hyphen is the first piece, and the rest splits on its own |
| JsStrings.SplitJoin | fhir-bundles/activity-definitions/imaging/generate-imaging.js:10-11 | splitting hyphen-free pieces joined with '-' gives back the pieces (split inverts join) |
| JsStrings.SplitLength | fhir-bundles/activity-definitions/imaging/generate-imaging.js:10 | the pieces' lengths add up to the string's length minus its hyphens |
| JsStrings.Join | fhir-bundles/activity-definitions/imaging/generate-imaging.js:11 | `parts.join(sep)`; inverted by `Split` (`JsStrings.Split`, `JsStrings.SplitJoin`), with its length stated by `JsStrings.JoinLength` |
| JsStrings.JoinLength | fhir-bundles/upload-bundles.ts:318-319 | `parts.join(sep)` is as long as the pieces plus one separator between each two |
| JsStrings.Concat | fhir-bundles/activity-definitions/imaging/generate-imaging.js:11 | `join('')` is as long as the pieces together |
| JsStrings.StartsWith | fhir-bundles/upload-bundles.ts:334 | `startsWith` holds exactly when the prefix occurs at position 0 |
| JsStrings.EndsWith | fhir-bundles/upload-bundles.ts:80 | `endsWith` holds exactly when the suffix occurs at the last possible position |
| JsStrings.ConcatAvoids | fhir-bundles/activity-definitions/imaging/generate-imaging.js:11 | a character found in no piece is not in the joined string |
| JsStrings.JoinEmptySeparator | fhir-bundles/activity-definitions/imaging/generate-imaging.js:11 | `join('')` is the concatenation of the pieces |
| JsStrings.LexTotal | fhir-bundles/upload-bundles.ts:85 | the string order of `sort()` is total |
| JsStrings.LexAntisymmetric | fhir-bundles/upload-bundles.ts:85 | two strings ordered both ways are equal |
| JsStrings.LexTrans | fhir-bundles/upload-bundles.ts:85 | the string order of `sort()` is transitive |
| JsStrings.SortedFirstLeast | fhir-bundles/upload-bundles.ts:85 | the first element of a sorted list comes before every later one |
| JsStrings.SortedFirstBeforeAll | fhir-bundles/upload-bundles.ts:85 | the first element of a sorted list comes before every element of it |
| JsStrings.PermutationTail | fhir-bundles/upload-bundles.ts:85 | two permutations of each other with the same first element stay permutations without it |
| JsStrings.SortedPermutationUnique | fhir-bundles/upload-bundles.ts:85 | two sorted permutations of one list are equal, so whatever algorithm the engine uses, `sort()` returns what `Sort` returns |
| JsStrings.Insert | fhir-bundles/upload-bundles.ts:85 | inserting into a sorted list keeps it sorted and adds exactly that element |
| JsStrings.Sort | fhir-bundles/upload-bundles.ts:85 | `results.sort()` returns a sorted permutation of its input |
| Normalize.Prepared | fhir-bundles/upload-bundles.ts:95-125 | an entry whose resource has no type is returned unchanged; otherwise the resource loses `id` and nothing else, the request is PUT exactly when `url` is truthy, and a PUT carries `fullUrl = url` and the target `Type?url=encode(url)`, while a POST targets the type and has no `fullUrl` |
| Normalize.PrepareEntryForMedplum | fhir-bundles/upload-bundles.ts:95-125 | deletes `id` from the entry's resource object in place and returns an entry sharing that object whose value is `Prepared` of the old entry |
| Normalize.PreparedIdempotent | fhir-bundles/upload-bundles.ts:95-125 | preparing an already prepared entry changes nothing |
| Normalize.PreparedIgnoresRequest | fhir-bundles/upload-bundles.ts:150-158 | the caller's `fullUrl` and request, such as the `PUT Type/<id>` built for a lone resource, are discarded once the resource has a type |
| Normalize.SingleEntry | fhir-bundles/upload-bundles.ts:152-157 | a lone resource is wrapped with no `fullUrl` and a `PUT` whose url starts with `ResourceType/` and ends with `/<id>` when the id is present |
| Normalize.PrepareAll | fhir-bundles/upload-bundles.ts:138 | one prepared entry per input entry, in order |
| Normalize.NormalizeDocument | fhir-bundles/upload-bundles.ts:132-169 | accepted exactly when the document is an object with a truthy `resourceType`; the count is the number of entries; a transaction Bundle yields its entries prepared in order (none when `entry` is missing); any other typed object yields one entry, itself without `id`; JSON `null` throws the TypeError of reading `resourceType`; any other document throws the "not recognized" error naming the file |
| Normalize.MaterializeEntry | fhir-bundles/upload-bundles.ts:134 | the parsed entry denotes the given value and its resource object is fresh |
| Normalize.ToTransactionBundle | fhir-bundles/upload-bundles.ts:132-169 | throws exactly when `NormalizeDocument` does, with the same message; otherwise the bundle's entries, prepared in place, denote exactly `NormalizeDocument`'s entries, with its count |
| Retry.MatchesAny | fhir-bundles/upload-bundles.ts:215-220 | the pattern scan succeeds exactly when some pattern occurs in the message |
| Retry.IsRetryableError | fhir-bundles/upload-bundles.ts:207-228 | not retryable exactly when `status ?? statusCode` is in [400, 500), or the message contains one of the seven non-retryable fragments, or `outcome.issue` is present |
| Retry.ClientErrorNotRetryable | fhir-bundles/upload-bundles.ts:209-212 | any error with a 4xx status is not retried, whatever its message |
| Retry.ServiceUnavailableRetryable | fhir-bundles/upload-bundles.ts:207-228 | a 503 "Service Unavailable" without an outcome payload is retried |
| Retry.FirstPatternsAbsent | fhir-bundles/upload-bundles.ts:48-52 | none of the first four non-retryable fragments occurs in "Service Unavailable" |
| Retry.LastPatternsAbsent | fhir-bundles/upload-bundles.ts:53-55 | none of the last three non-retryable fragments occurs in "Service Unavailable" |
| Retry.Pow2 | fhir-bundles/upload-bundles.ts:251 | `Math.pow(2, n)` is at least 1 |
| Retry.Backoff | fhir-bundles/upload-bundles.ts:251 | the wait after attempt k is at least 2 s and twice 2^k seconds, i.e. 2^(k+1)·1000 ms |
| Retry.RetryFrom | fhir-bundles/upload-bundles.ts:240-258 | from attempt `attempt` on, the loop makes between one call and the remaining `maxRetries + 1 - attempt`, sleeps once fewer than it calls, and ends with the outcome of its last call |
| Retry.RetrySpec | fhir-bundles/upload-bundles.ts:233-259 | `uploadWithRetry` makes 1 to `maxRetries + 1` calls, one sleep fewer than calls, and returns or rethrows the outcome of the last call |
| Retry.UploadWithRetry | fhir-bundles/upload-bundles.ts:233-259 | the loop returns the outcome, sleeps and call count of `RetrySpec` |
| Retry.RetryFromShape | fhir-bundles/upload-bundles.ts:240-258 | from any attempt on: every failure before the last call was retryable, and an error ends the run only when it is not retryable or attempts are exhausted |
| Retry.RetryFromSleeps | fhir-bundles/upload-bundles.ts:250-254 | from any attempt on, the k-th sleep lasts `Backoff(attempt + k)` |
| Retry.RetryProperties | fhir-bundles/upload-bundles.ts:233-259 | 1 to `maxRetries + 1` calls; the first success or the final error is returned; every failure before the last call was retryable; sleep k is 2^(k+1)·1000 ms, and there is none after the last call |
| Retry.NonRetryableStopsAtOnce | fhir-bundles/upload-bundles.ts:246-248 | a first error that is not retryable is rethrown after one call, with no sleep |
| Retry.TwoRetryableErrorsThenSuccess | fhir-bundles/upload-bundles.ts:240-256 | two retryable failures and then a success give sleeps of 2000 and 4000 ms, three calls and the response |
| Retry.BadRequestNotRetried | fhir-bundles/upload-bundles.ts:209-212 | a 400 gives one call, no sleep and the error rethrown |
| Discovery.JsonFilesUnder | fhir-bundles/upload-bundles.ts:73-84 | the `.json` files of a subtree in listing order; every one ends in `.json` |
| Discovery.JsonFilesUnderAreInside | fhir-bundles/upload-bundles.ts:76-83 | every file the walk collects lies inside the walked directory |
| Discovery.WalkJsonFiles | fhir-bundles/upload-bundles.ts:73-85 | the recursive walk returns a sorted permutation of the `.json` files of the whole subtree |
| Discovery.Lookup | fhir-bundles/upload-bundles.ts:183 | finds the directory entry with the given name, or reports that there is none |
| Discovery.FindJsonFiles | fhir-bundles/upload-bundles.ts:68-86 | a missing path gives no files; a path that is not a directory throws; a directory gives its subtree's `.json` files, sorted |
| Discovery.RootJsonFiles | fhir-bundles/upload-bundles.ts:189-195 | the loose root files are exactly the names of the root entries that are regular `.json` files other than the three configuration files, at most one per entry |
| Discovery.RootJsonFilesInListingOrder | fhir-bundles/upload-bundles.ts:189-195 | the loose root files keep the listing order and are not sorted: the files of an earlier part of the listing come first |
| Discovery.GroupFilesByUploadOrder | fhir-bundles/upload-bundles.ts:174-198 | throws exactly when a named group exists and is not a directory; otherwise gives the four named groups in upload order, each with its sorted files, then `_other` with the loose root files |
| Discovery.AllFiles | fhir-bundles/upload-bundles.ts:292-297 | the visiting order holds exactly the files of the groups |
| Discovery.EarlierGroupsFirst | fhir-bundles/upload-bundles.ts:292-297 | each file of an earlier group is visited before each file of a later group |
| Discovery.FileIndex | fhir-bundles/upload-bundles.ts:292-297 | every file of every group is visited |
| Upload.EntryIssues | fhir-bundles/upload-bundles.ts:307-315 | at most two issues per entry; none exactly when it has a request url and no residual id; the missing-url issue exactly when the url is missing |
| Upload.DryRunIssues | fhir-bundles/upload-bundles.ts:306-317 | at most two issues per entry; the dry run reports no issue exactly when every entry has a request url and no residual id |
| Upload.PreparedPassesDryRun | fhir-bundles/upload-bundles.ts:305-315 | an entry prepared from a typed resource always passes the dry-run check |
| Upload.DryRunFlagsOnlyUntyped | fhir-bundles/upload-bundles.ts:301-317 | in a normalized document the dry run can flag only untyped transaction entries that lack a request url or carry an id |
| Upload.FailedEntries | fhir-bundles/upload-bundles.ts:332-335 | the failed entries are exactly the response entries whose status is present and does not start with '2', each kept as many times as it occurs in the response and no other entry |
| Upload.FailedEntriesInOrder | fhir-bundles/upload-bundles.ts:332-335 | the filter keeps response order: the failed entries of a concatenation are those of the first part followed by those of the second |
| Upload.EntryErrorDetail | fhir-bundles/upload-bundles.ts:346 | a failed entry's detail starts with `status: ` and ends with its diagnostics, or "sin detalle" when there are none |
| Upload.ErrorDetails | fhir-bundles/upload-bundles.ts:345-347 | one detail per failed entry, the k-th being the `status: diagnostics` detail of the k-th failed entry |
| Upload.FileOutcome | fhir-bundles/upload-bundles.ts:300-358 | every file gets a result for itself that is never `skipped`; an error result carries a detail and an ok result none; the recorded count is at most what was added to the total; a dry run makes no client call |
| Upload.UploadFile | fhir-bundles/upload-bundles.ts:300-358 | the per-file body records the result, resource count and client calls of `FileOutcome` |
| Upload.DryRunVerdict | fhir-bundles/upload-bundles.ts:304-325 | in a dry run a normalized file is an error exactly when some entry lacks a request url or still has an id |
| Upload.LiveVerdict | fhir-bundles/upload-bundles.ts:329-353 | in a live run an answered file is an error exactly when some response entry has a status not starting with '2'; entries without a status are ignored |
| Upload.ThrownErrorRecorded | fhir-bundles/upload-bundles.ts:354-358 | an error escaping the retries is recorded as the file's error, with its message and resource count 0 |
| Upload.Steps | fhir-bundles/upload-bundles.ts:297-359 | one step per file, in order |
| Upload.ResultsOf | fhir-bundles/upload-bundles.ts:289 | one recorded result per step, in order |
| Upload.CountStatus | fhir-bundles/upload-bundles.ts:365-366 | a status count never exceeds the number of results |
| Upload.StepsAppend | fhir-bundles/upload-bundles.ts:292-297 | running two file lists one after the other is running their concatenation, for results, total and calls |
| Upload.UploadGroup | fhir-bundles/upload-bundles.ts:297-359 | the per-file loop records the results, adds the resource counts and makes the calls that `Steps` specifies for the group's files |
| Upload.VisitGroup | fhir-bundles/upload-bundles.ts:293-359 | an empty group is skipped, and any other group is uploaded; either way the group contributes its `Steps` |
| Upload.UploadGroups | fhir-bundles/upload-bundles.ts:292-362 | the group loop records the results, total and calls of `Steps` over every file of every group, in visiting order |
| Upload.Run | fhir-bundles/upload-bundles.ts:269-362 | stops for missing credentials exactly outside a dry run without them; otherwise fails fatally exactly when a named group is not a directory; otherwise completes with discovery's groups and the `Steps` results, total and calls |
| Upload.ExitCode | fhir-bundles/upload-bundles.ts:374-388 | the exit status is 0 or 1, and 0 exactly when the run completed with no failed file |
| Upload.OkPlusErrorIsAll | fhir-bundles/upload-bundles.ts:365-366 | with nothing skipped, ok plus error counts every result |
| Upload.TotalCoversRecorded | fhir-bundles/upload-bundles.ts:301-302 | the resource total is at least the sum of the recorded counts |
| Upload.NoCallsWhenNoneMade | fhir-bundles/upload-bundles.ts:304-326 | files that make no call add no calls |
| Upload.NoErrorsAllOk | fhir-bundles/upload-bundles.ts:365-382 | no error result exactly when every result is ok |
| Upload.RunSummary | fhir-bundles/upload-bundles.ts:364-380 | a completed run has one result per discovered file and ok + error equals that number; the total is at least the recorded counts; a dry run never calls the client; the exit status is 1 exactly when some file failed and 0 exactly when all are ok |
| ActivityDefinitions.CanonicalUrlInjective | fhir-bundles/activity-definitions/imaging/generate-imaging.js:24 | different ids give different canonical URLs |
| ActivityDefinitions.GeneratedUploadsAsConditionalUpdate | fhir-bundles/upload-bundles.ts:105-115 | a generated definition is uploaded as a conditional PUT on `ActivityDefinition?url=encode(canonical)`, with `fullUrl` the canonical URL and its id removed |
| ActivityDefinitions.WriteFiles | fhir-bundles/activity-definitions/imaging/generate-imaging.js:332-339 | one file per row, in row order, and the count equals the number of rows |
| ActivityDefinitions.WriteFilesUntilFailure | fhir-bundles/activity-definitions/high-complexity/generate.js:357-363 | rows are written in order up to the first one whose build throws; the script stops with that row's error, and it runs to the end exactly when no row fails |
| Imaging.StripPrefix | fhir-bundles/activity-definitions/imaging/generate-imaging.js:8 | "ad-img-" is removed only where the id starts with it |
| Imaging.UpperChar | fhir-bundles/activity-definitions/imaging/generate-imaging.js:10 | lower-case ASCII letters become upper case and everything else is unchanged |
| Imaging.Capitalize | fhir-bundles/activity-definitions/imaging/generate-imaging.js:10 | the first character is upper-cased and the rest kept; an empty piece stays empty; no hyphen is introduced |
| Imaging.CapitalizeAll | fhir-bundles/activity-definitions/imaging/generate-imaging.js:10 | each piece is capitalized, in order |
| Imaging.ToPascalCase | fhir-bundles/activity-definitions/imaging/generate-imaging.js:6-12 | the name holds no hyphen, and its length is the stripped id's length minus its hyphens |
| Imaging.PascalCaseOfPieces | fhir-bundles/activity-definitions/imaging/generate-imaging.js:6-12 | an id made of the prefix and hyphen-free pieces is named by the capitalized pieces, concatenated |
| Imaging.PascalCaseExample | fhir-bundles/activity-definitions/imaging/generate-imaging.js:91 | "ad-img-ecg-12lead" is named "Ecg12lead" |
| Imaging.BuildActivityDefinition | fhir-bundles/activity-definitions/imaging/generate-imaging.js:14-87 | the fixed members and Imaging profile; id copied; canonical URL from the id; `name` is `toPascalCase(id)`; a single SNOMED coding with the row's code and display and `text` the title; the use context from the row's specialty code and display; the three extensions in order |
| Imaging.FixedMembersShared | fhir-bundles/activity-definitions/imaging/generate-imaging.js:17-36 | any two rows give the same profile, status, experimental flag, kind and intent |
| Imaging.OutputFile | fhir-bundles/activity-definitions/imaging/generate-imaging.js:333-335 | a row is written to `<id>.json` holding its well-formed definition, whose id is the row's and whose name is the PascalCase form of it |
| Imaging.Generate | fhir-bundles/activity-definitions/imaging/generate-imaging.js:332-341 | every row is written to `<id>.json`, in table order, and the count equals the number of rows |
| HighComplexity.BuildResource | fhir-bundles/activity-definitions/high-complexity/generate.js:279-352 | throws the TypeError exactly when the specialty is not in `SPECIALTY_SNOMED`; otherwise the fixed members and HighComplexity profile, id copied, canonical URL, `name` and `title` copied verbatim, the row's SNOMED coding with `text` the title, the use context from the looked-up concept, and the three extensions in order |
| HighComplexity.OutputFile | fhir-bundles/activity-definitions/high-complexity/generate.js:358-360 | a row is written to `<id>.json` exactly when its specialty is known |
| HighComplexity.Generate | fhir-bundles/activity-definitions/high-complexity/generate.js:354-365 | rows are written to `<id>.json` in order; the loop completes exactly when every specialty is known, and otherwise stops at the first unknown one with the TypeError |
| HighComplexity.TableSpecialtiesKnown | fhir-bundles/activity-definitions/high-complexity/generate.js:4-10 | every specialty named in the table is a key of `SPECIALTY_SNOMED` |
| HighComplexity.TableBuildsEveryRow | fhir-bundles/activity-definitions/high-complexity/generate.js:279-280 | the script's own table builds every row without throwing |
| HighComplexity.SampleRowsWritten | fhir-bundles/activity-definitions/high-complexity/generate.js:12-277 | the ergometry, breast MRI and spirometry rows are each written to `<id>.json` with their own id, name and title |
| HighComplexity.PulmonologyDisplaysDiffer | fhir-bundles/activity-definitions/high-complexity/generate.js:8 | the imaging table's pulmonology row has the lookup's code but a different display |

## Left out

- The FHIR client's `startClientLogin` and `executeBatch` are left out. Login is assumed to succeed. A failing login would end the run through `main().catch`.
- Each batch execution is an outcome chosen by `exec(file, attempt)`. The server's behaviour is not modelled.
- `sleep` is left out: requested delays are recorded, not waited for.
- `async`/`await` are left out. The run is sequential, as written.
- File system access is left out. Reading and parsing a file is the parameter `read`, and a read or `JSON.parse` failure arrives as `Unreadable(message)`.
- The directory tree is a value. Paths are relative to the bundles directory. The source sorts absolute paths that share the same prefix, so the order is the same. The "not recognized" error names the file by this relative path, whereas the source names the absolute path.
- Symbolic links are left out. A group directory reached through a link is treated as "not a directory", whereas Node would list it.
- The exact `ENOTDIR` text of Node's error is left out.
- `JSON.stringify` formatting and the file writes are left out. The generators return the (file name, resource) pairs they would write.
- `encodeURIComponent` is the uninterpreted parameter `encode`. Its `URIError` on lone surrogates is not modelled.
- Console output, `--verbose`, `process.argv`, `process.env` and `process.exit` are left out. The credential check is the boolean `hasCredentials`, and the exit status is `Upload.ExitCode`.
- The static definition tables are left out apart from a few sample rows. The high-complexity table's specialty column is kept in full (`HighComplexity.TableSpecialties`).
- JSON resources carry only `resourceType`, `id`, `url`, Bundle `type` and `entry`. Every other member is an opaque string map.
- Non-string values of `resourceType`, `id` or `url` are not modelled.
- A non-array `entry` member is not modelled, and neither is a `null` element inside `entry`.
- Entry members other than `fullUrl`, `resource` and `request` are dropped.
- JsStrings.Sort: orders strings by Unicode code point, whereas JavaScript's default sort compares UTF-16 code units. The two differ only for characters outside the Basic Multilingual Plane.
- Imaging.UpperChar: upper-cases ASCII letters only. `toUpperCase` also maps other letters, and a few of them expand to two characters.
- HighComplexity.BuildResource: treats every specialty that is not one of the five keys as missing. In JavaScript, inherited names such as `constructor` resolve to a function whose `.code` is `undefined`; that does not throw, and the use-context coding then loses its code and display.
