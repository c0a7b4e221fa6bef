# threads-post-analysis, modelled in Dafny

This project models the deterministic core of threads-post-analysis. That repository is a
Google Apps Script tool that collects the user's Threads posts and their metrics into a
spreadsheet, analyses them and writes reports. The model has four parts:

- **The TypeScript-to-JavaScript build scripts.** These are `fix_typescript_syntax`,
  `remove_typescript_types`, `convert_typescript_to_javascript`, `convertToJavaScript` and
  `transformForGAS`.
  - Every regular-expression rule is a hand-written scanner over `seq<char>`. It computes
    the match the backtracking engine would choose at a position (module `TsRules` and the
    per-script modules).
  - `Rewrite.ReplaceAll` is the scan-and-replace loop of Python's `re.sub` and of
    JavaScript's `replace(/…/g, …)`.
  - The rules are composed in the order each script applies them. The line-wise passes
    of `fix-all.py` and `simple-convert.py` are loops with invariants.
- **The property store.** The `DataManager` class (both copies) and the `gasUtils`
  helpers are modelled over a map of script properties.
  - The store keeps a newest-first history list capped at `maxItems`. It deletes exactly
    the keys that fall off the list.
  - The `logError` history is capped at ten entries.
- **Row tables.** A sheet is a `Sheets.Sheet` object holding a sequence of rows, with the
  header as row 1. On it are modelled:
  - the row look-ups;
  - the composite-key upsert of `SpreadsheetManager`;
  - appends;
  - the backwards retention loops (`cleanupOldLogs`, `deleteOldMetrics`, `deleteOldPosts`);
  - the post master update and the schema migration of `Code.ts`;
  - the hourly metrics sweep of `batchProcessor.ts`;
  - the statistics fold of `getBatchExecutionStatusReal`.
- **Analytics and validators.**
  - `determineTimeCategory`;
  - the `DataProcessor` aggregates, including the 24-bucket hour histogram and the ten
    most frequent words;
  - the `ReportGenerator` busiest hour and weekday, the report table and the chart data;
  - the API-key and spreadsheet-ID checks.

Services are replaced by inputs:
- The property service becomes a map plus a `failing` flag.
- `UrlFetchApp.fetch` becomes a function from the attempt number to a response.
- The Threads API results become values passed in.
- "Now" and the retention cut-offs become integers in milliseconds.
- The engine's date-string parser becomes a function parameter.
- JSON becomes an abstract `Codec` that reads back what it writes.

The interface rule `interface\s+\w+\s*\{[^}]*\}` stops at the first `}`, so an
interface with a nested object type is only partly removed (src/types.ts:21-23 is such a
case). `TsRules.InterfaceDeleted` states the behaviour for bodies without `}`, and the
scanner reproduces the truncation otherwise.

## Model

| member | source | states |
|---|---|---|
| TsRules.InterfaceMatch | scripts/fix-all.py:15 | a match starts with `interface`, ends at a `}` and holds no earlier `}`; it is replaced by nothing |
| TsRules.InterfaceDeleted | scripts/fix-all.py:15 | `interface Name {…}` whose body has no `}` is deleted from `interface` through the first `}` (same rule at convert-ts-to-js.py:13, simple-convert.py:14, manual-build.js:59) |
| TsRules.TypeAliasDeleted | scripts/fix-all.py:16 | `type Name = …;` is deleted through the first `;` when something stands between `=` and `;` |
| TsRules.ImportLineMatch | scripts/fix-all.py:19 | an import-line match starts at a line start and ends at a line end, and is replaced by nothing (the `;?` variant of convert-ts-to-js.py:16 too) |
| TsRules.ImportLineDeleted | scripts/fix-all.py:19 | a line `import …;` is deleted up to the end of its line, including the whitespace after the first `;` |
| TsRules.ExportLineMatch | scripts/fix-all.py:20 | only `export` and the whitespace after it, at the start of a line, are removed; the declaration stays |
| TsRules.AsMatch | scripts/fix-all.py:23-25 | an `as` match is whitespace, `as`, whitespace and a tail of the rule's class, replaced by nothing |
| TsRules.AnyArrayCoversBrackets | scripts/fix-all.py:23-24 | at a position where the `as any` rule matches and `[]` follows it, the `as any[]` rule matches at the same position and removes the brackets too |
| TsRules.ReturnTypeMatch | scripts/fix-all.py:28-38 | a match is a function header followed by `: T {`, rewritten to the header and ` {` |
| TsRules.ReturnTypeDropped | scripts/convert-ts-to-js.py:21-25 | after `function f(params)`, `: T {` with `T` free of `{` becomes ` {`: everything between `)` and the first `{` goes |
| TsRules.AnnotationNeverAdds | scripts/convert-ts-to-js.py:35 | the parameter-annotation rule only ever writes a name, so it adds no character outside `\w` |
| TsRules.AnnotationReduced | scripts/convert-ts-to-js.py:35 | `name: T` or `name?: T` with `T` running to the next stop character becomes `name` (also simple-convert.py:39, manual-build.js:83) |
| TsRules.TypedBindingMatch | scripts/convert-ts-to-js.py:43-47 | a match is `const|let|var name:` with an annotation up to `=` (or `;`), rewritten to `kw name =` (or `kw name;`) |
| TsRules.BindingAnnotationDropped | scripts/convert-ts-to-js.py:43-47 | `kw name: T =` becomes `kw name =`, the annotation up to the first `=` removed (also simple-convert.py:43, manual-build.js:75) |
| TsRules.ModifierMatch | scripts/fix-all.py:92 | a match is `private|public|protected|readonly` at a word boundary with all the whitespace after it |
| TsRules.GenericsMatch | scripts/fix-all.py:95 | a match is `<`, an identifier start, characters of the generic class and a closing `>` |
| TsRules.PropertyLineMatch | scripts/convert-ts-to-js.py:59 | a property-declaration match spans whole lines, from a line start to a line end, and is deleted (also manual-build.js:91) |
| TsRules.ExportWordMatch | scripts/manual-build.js:55 | every `export` followed by whitespace is removed with that whitespace, anywhere (also post-build.js:42) |
| TsRules.ImportFromMatch | scripts/manual-build.js:56 | an `import … from …;` match ends after the last `;` of its line and the whitespace after it (also post-build.js:45) |
| TsRules.UseStrictMatch | scripts/manual-build.js:94 | a quoted `use strict;` and the whitespace after it are removed (also post-build.js:39) |
| FixAll.ParamDefaultMatch | scripts/fix-all.py:60 | `name: Type = ` in parameter mode becomes `name = ` |
| FixAll.ParamUnionMatch | scripts/fix-all.py:62 | `name: …` up to a `,` or `)` becomes the name followed by that `,` or `)` |
| FixAll.ParamRulesKeepParens | scripts/fix-all.py:60-65 | neither parameter rule adds or removes a `)`, so the `')' in line` test sees the line's own parentheses |
| FixAll.FixLineFacts | scripts/fix-all.py:49-78 | comment lines are copied and keep the flag; `function ` plus `(` enters parameter mode; the first line with `)` leaves it; no line gains a newline |
| FixAll.LinePassLine | scripts/fix-all.py:45-84 | each output line is its input line processed under the flag the lines before it left |
| FixAll.ThreadLine | scripts/fix-all.py:45-84 | in a line pass that threads a flag through the lines, each output line is the step on its input line under the flag left by the lines before |
| FixAll.LinePassFacts | scripts/fix-all.py:41-86 | one output line per input line; comment lines unchanged; no output line holds a newline |
| FixAll.FixLines | scripts/fix-all.py:45-84 | the loop produces exactly the line pass of the lines, starting outside parameter mode |
| FixAll.LineCountKept | scripts/fix-all.py:41 | splitting and joining with `\n` gives the text back, so the pass keeps the line count |
| FixAll.CollapseFrom | scripts/fix-all.py:89 | the `\n\n\n+` rule equals a character-by-character reference that keeps a newline only while fewer than two have been seen |
| FixAll.CollapseLeavesNoTriple | scripts/fix-all.py:89 | after the collapse no three newlines stand in a row |
| FixAll.CollapseIdempotent | scripts/fix-all.py:89 | collapsing twice is collapsing once |
| FixAll.FixTypescriptSyntax | scripts/fix-all.py:11-97 | the whole script: declarations stripped, then the line pass, the join, the collapse, modifiers and generics |
| ConvertTsToJs.QuotedParamsKept | scripts/convert-ts-to-js.py:32-33 | parameter text holding a quote or backtick is returned unchanged by the header callback |
| ConvertTsToJs.PlainParamsKept | scripts/convert-ts-to-js.py:35 | parameter text without a quote and without `:` is returned unchanged |
| ConvertTsToJs.StripWrapped | scripts/convert-ts-to-js.py:39 | wrapping in parentheses and `strip("()")` gives the text back unless it starts or ends with a parenthesis |
| ConvertTsToJs.FunctionName | scripts/convert-ts-to-js.py:39 | the name taken is a non-empty word after `function` and before the `(` |
| ConvertTsToJs.HeaderMatch | scripts/convert-ts-to-js.py:39 | a header match ends where `function\s+\w+\s*\([^)]*\)` ends and is rebuilt as `function name(…)` around the cleaned parameters |
| SimpleConvert.ColonFreeLineKept | scripts/simple-convert.py:36 | a line without `:` is copied unchanged |
| SimpleConvert.ExcludedLineOnlyDeclaration | scripts/simple-convert.py:36-43 | on a comment line or one holding a quote or backtick, only the typed-declaration rule can change it |
| SimpleConvert.ConvertLineNoBreak | scripts/simple-convert.py:39-43 | converting a line never introduces a newline |
| SimpleConvert.ConvertLines | scripts/simple-convert.py:33-45 | one output line per input line, each the converted input line |
| SimpleConvert.LineCountKept | scripts/simple-convert.py:30-47 | the converted lines joined and split again are the converted lines |
| SimpleConvert.ConvertTypescriptToJavascript | scripts/simple-convert.py:10-61 | the whole script: head rules, the line pass with one line per line, then the tail rules |
| ManualBuild.MethodReturnMatch | scripts/manual-build.js:70 | a match is a call-shaped header, `: T` and `{` or `=>`, rewritten to the header and ` {` or ` =>` |
| ManualBuild.MethodReturnDropped | scripts/manual-build.js:70 | `name(params): T {` or `… =>` with `T` free of `{` and `=` loses `: T` |
| ManualBuild.ParenGroupMatch | scripts/manual-build.js:81-85 | a group match runs from `(` to the first `)` and is replaced by the cleaned inner text in parentheses |
| ManualBuild.ParenGroupKeepsParens | scripts/manual-build.js:81-85 | the rewritten group keeps both parentheses and has no `)` between them |
| ManualBuild.CleanedHasNoParen | scripts/manual-build.js:83 | cleaning parameter text without `)` never produces a `)` |
| PostBuild.ShorthandMatch | scripts/post-build.js:65-71 | a shorthand match starts at the opening `{` or `,` and ends at the `,` or `}` |
| PostBuild.ShorthandExpanded | scripts/post-build.js:65-71 | `{ ident,` and `{ ident }` (and the `,` forms) become `{ ident: ident,` and `{ ident: ident}` |
| PostBuild.ShorthandInArgumentList | scripts/post-build.js:69-71 | the `,` form also rewrites inside argument lists: in `f(a, b, c)` the `, b,` becomes `, b: b,` |
| PostBuild.ArrowMatch | scripts/post-build.js:85-92 | a match starts at `const` and ends at `{`, rewritten to `function name() {` |
| DataManager.Stored | src/dataManager.ts:176-197 | a key counts as present exactly when it is in the store with a non-empty value |
| DataManager.DefaultsWhenAbsent | src/dataManager.ts:28-46 | with no `SETTINGS`, the defaults: postLimit 25, analysisInterval 12, highlights 1.5/2.0/3.0 |
| DataManager.SettingsRoundTrip | src/dataManager.ts:15-46 | settings saved are the settings read back |
| DataManager.DataManager.SaveSettings | src/dataManager.ts:15-23 | only `SETTINGS` changes, and `getSettings` then returns the saved settings |
| DataManager.KeptAndRemoved | src/dataManager.ts:148-159 | the new key is first; at most `maxItems` are kept; kept followed by removed is the old list with the new key in front |
| DataManager.SavedHistoryFacts | src/dataManager.ts:144-171 | afterwards the data is under its key, the list reads back as the kept keys, exactly the cut-off keys are deleted and every other key keeps its value |
| DataManager.DataManager.SaveToHistory | src_backup/dataManager.ts:150-181 | an unreadable list changes nothing; otherwise the store becomes the saved-history store (same code at src/dataManager.ts:144-171) |
| DataManager.EntriesFacts | src/dataManager.ts:186-197 | no more entries than keys; every entry is a listed key with its stored data; every listed key with data has its entry |
| DataManager.DataManager.GetHistory | src/dataManager.ts:176-202 | the entries for the first `min(length, limit)` keys, in order, skipping keys with nothing stored; an error when a stored entry among them is not valid JSON (same at src_backup/dataManager.ts:186-212) |
| DataManager.DataManager.SavePostData | src/dataManager.ts:56-75 | `LATEST_POST_DATA` is written, then the posts are saved to the `POST_HISTORY` list under `POST_DATA_<time>` |
| DataManager.DataManager.SaveAnalysisResult | src/dataManager.ts:100-119 | `LATEST_ANALYSIS` is written, then the result is saved to the analysis history |
| DataManager.DataManager.SaveStatistics | src/dataManager.ts:207-218 | the statistics are stored under the current month's key and read back from it |
| DataManager.DataManager.GetStatistics | src/dataManager.ts:223-238 | null exactly when nothing is stored for the month; an error exactly when the stored text is not valid JSON; otherwise the stored statistics |
| DataManager.DataManager.GetStatisticsOrEmpty | src_backup/dataManager.ts:233-248 | `{}` when nothing is stored for the month, an error when the stored text is not valid JSON, the stored statistics otherwise |
| DataManager.DataManager.ClearAllData | src/dataManager.ts:243-254 | the store is left empty |
| DataManager.TotalSizeWithout | src_backup/dataManager.ts:276-285 | the total length is one value's length plus the total of the others, whichever is counted first |
| DataManager.DataManager.GetDataSize | src_backup/dataManager.ts:269-290 | `totalSize` is the sum of the values' JavaScript lengths, `itemCount` the number of keys, and `details` each key's length |
| DataManager.BatchSaveOutcome | src_backup/dataManager.ts:316-340 | success exactly when the append returned true, with `count` the number of posts; failure carries no count |
| GasUtils.SafeJsonRoundTrip | src/gasUtils.ts:9-28 | what `safeJsonStringify` wrote, `safeJsonParse` reads back, whatever the default |
| GasUtils.ScriptProperties.GetPropertySafely | src/gasUtils.ts:33-40 | the stored non-empty value, otherwise the default; the default also when the service throws |
| GasUtils.ScriptProperties.SetPropertySafely | src/gasUtils.ts:45-53 | true and the value written exactly when the service works; otherwise false and nothing changes |
| GasUtils.ScriptProperties.SetPropertiesSafely | src/gasUtils.ts:58-66 | true and every pair written, others kept, exactly when the service works |
| GasUtils.ScriptProperties.DeletePropertySafely | src/gasUtils.ts:71-79 | true and the key gone exactly when the service works; otherwise false and nothing changes |
| GasUtils.BackoffFacts | src/gasUtils.ts:98-101 | the k-th pause is 2^(k+1)·1000 ms, each twice the previous |
| GasUtils.FetchUrlSafely | src/gasUtils.ts:84-107 | at most `maxRetries` attempts; the first success is returned after all earlier ones failed; null only after every attempt failed; a pause after each failed attempt but the last |
| GasUtils.IsExecutionTimeExceeded | src/gasUtils.ts:132-135 | true exactly when the elapsed time is at least `maxMinutes` minutes |
| GasUtils.ScriptProperties.DebugLog | src/gasUtils.ts:176-181 | a line is logged exactly when `DEBUG_MODE` is `true`, and it is `[DEBUG] ` plus the message |
| GasUtils.NewestFacts | src/gasUtils.ts:199-205 | the new entry first, then the older entries in order, never more than ten |
| GasUtils.ScriptProperties.LogError | src/gasUtils.ts:186-211 | the history is written back with the new entry in front, cut to ten; a failing service changes nothing |
| GasUtils.LogErrorReadBack | src/gasUtils.ts:196-207 | after `logError` the history reads back as the new entry then the old history, at most ten |
| Sheets.DateCellReadsBack | src/Code.ts:1219 | a date written to a cell reads back as the same date, an Invalid Date included |
| Sheets.OverwriteCells | src/spreadsheetManager.ts:221-224 | `setValues` on a row range changes exactly the written columns |
| Sheets.Sheet.FindDataRow | src/spreadsheetManager.ts:141-157 | the look-up loop returns the first data row (row number 2 or more) that matches |
| Sheets.SurvivingFacts | src/Code.ts:1118-1132 | exactly the rows not picked survive, and as many go as are picked |
| Sheets.DataRowsKeptFacts | src/Code.ts:1118-1132 | the header stays; a data row stays exactly when it is not picked; the rows removed are the rows picked |
| Sheets.Sheet.DeleteDataRowsWhere | src/Code.ts:1118-1132 | the backward loop leaves the header and the unpicked data rows in order, and counts the rows deleted |
| Sheets.DeleteStep | src/Code.ts:1123-1131 | one round of the backward loop: the rows above stay, and the row is deleted exactly when it is picked |
| Sheets.PendingEnds | src/Code.ts:1118-1132 | before the backward loop the rows are the header and all data rows; after it, the header and the unpicked ones |
| BatchProcessor.DetermineTimeCategory | src/batchProcessor.ts:11-32 | the result is 0, 1, 12, 24 or 72; a fixed k is returned exactly when k ≤ h < k+1 |
| BatchProcessor.TimeCategoryIsUnique | src/batchProcessor.ts:13-31 | category k holds exactly in k's hour; the gaps below 1, 2-12, 13-24, 25-72 and from 73 give 0 |
| BatchProcessor.VisitSkips | src/batchProcessor.ts:78-99 | posts older than seven days and already-recorded fixed categories leave everything as is; a failed fetch only adds an error |
| BatchProcessor.LatestAlwaysRefreshed | src/batchProcessor.ts:93-99 | category 0 is always upserted and counted as processed when its insights arrive |
| BatchProcessor.SweepCounts | src/batchProcessor.ts:105-137 | processed = new + updated, and each post adds at most one to processed plus errors |
| BatchProcessor.SweepKeepsKeysUnique | src/batchProcessor.ts:101-137 | the sweep keeps (post_id, time_category) unique in the table |
| BatchProcessor.VisitPost | src/batchProcessor.ts:73-146 | one loop round on the manager's `posts` rows does what the sweep step says |
| BatchProcessor.FetchMetricsHourly | src/batchProcessor.ts:38-177 | the error messages for no key and a failed listing with the table unchanged; otherwise the table and counters of the sweep |
| BatchProcessor.SweepPosts | src/batchProcessor.ts:73-146 | the loop over the listed posts leaves the table and counters of the sweep over all of them, in their order |
| BatchProcessor.SweepPrefix | src/batchProcessor.ts:73-146 | one more round of the loop visits the next post after the sweep so far |
| BatchProcessor.DeleteOldPosts | src/batchProcessor.ts:182-234 | the missing-ID, unopenable-spreadsheet and missing-sheet errors; no data rows gives 0; otherwise exactly the rows posted before the cut-off are deleted and counted |
| BatchProcessor.DeleteOldPostsFacts | src/batchProcessor.ts:204-227 | the header is kept, the rows kept are exactly those not posted before the cut-off, and the count is the rows gone |
| SpreadsheetManager.HeaderRow | src/spreadsheetManager.ts:102-116 | the header row has one text cell per header name, in order |
| SpreadsheetManager.EngagementRate | src/spreadsheetManager.ts:192-195 | the rate is `0.00` without impressions; otherwise the text ends in two digits after a point |
| SpreadsheetManager.FixedTwoReadsBack | src/spreadsheetManager.ts:194 | `toFixed(2)` of a non-negative value reads back as its hundredths: the digits before the point times 100 plus the two after it |
| SpreadsheetManager.EngagementRateReadsBack | src/spreadsheetManager.ts:192-195 | with impressions, the rate text reads back as the hundredths of engagement ÷ impressions × 100, within 0.005 of the exact percentage |
| Text.NatToStringValue | src/spreadsheetManager.ts:194 | the decimal text of a number reads back as that number |
| SpreadsheetManager.Hundredths | src/spreadsheetManager.ts:194 | the rate in hundredths lies within half a hundredth of the exact rate |
| SpreadsheetManager.PostRow | src/spreadsheetManager.ts:201-215 | the upserted row has the 13 columns and carries the post's key in columns A and G |
| SpreadsheetManager.SpreadsheetManager.FindPostRecord | src/spreadsheetManager.ts:130-162 | the first data row with that post id and category, null with no table or no match |
| SpreadsheetManager.SpreadsheetManager.UpsertPostData | src/spreadsheetManager.ts:167-232 | succeeds exactly when the table is reachable, and then the rows become the upserted rows (match overwritten keeping created_at, or one row appended) |
| SpreadsheetManager.UpsertKeepsKeysUnique | src/spreadsheetManager.ts:198-225 | an upsert keeps (post_id, time_category) unique and leaves a row with the new key |
| SpreadsheetManager.SpreadsheetManager.GetOrCreateDataSheet | src/spreadsheetManager.ts:283-304 | the `ThreadsData` sheet, created with its header row when missing; other sheets unchanged |
| SpreadsheetManager.DataRow | src/spreadsheetManager.ts:406-422 | each appended row has the 15 columns, stamped with the batch time in A and O |
| SpreadsheetManager.DataRows | src/spreadsheetManager.ts:401-431 | one row per post, in order |
| SpreadsheetManager.SpreadsheetManager.BatchAppendPostData | src/spreadsheetManager.ts:393-438 | succeeds exactly when reachable, and then the rows for the posts follow the existing rows (or a new header); a failure changes no sheet; only `ThreadsData` may be added to the sheets and every other sheet keeps its rows |
| SpreadsheetManager.SpreadsheetManager.BuildDataRows | src/spreadsheetManager.ts:403-425 | the loop builds one row per post, in order |
| SpreadsheetManager.DataRowsPrefix | src/spreadsheetManager.ts:405-425 | the rows of a longer prefix are the rows of the shorter one plus the next post's row |
| SpreadsheetManager.SortSorts | src/spreadsheetManager.ts:493-495 | with valid fetch times the result is in ascending order of fetch time |
| SpreadsheetManager.SpreadsheetManager.GetRecentData | src/spreadsheetManager.ts:443-503 | the rows of that posting date fetched within `hours`, sorted by fetch time; empty when unreachable or missing; no sheet changes except a new `ThreadsData` sheet holding only its header |
| SpreadsheetManager.SpreadsheetManager.GetDataStatistics | src/spreadsheetManager.ts:541-567 | `totalRows` is max(0, lastRow − 1), with the stamp of the last row; no sheet changes except a new `ThreadsData` sheet holding only its header |
| CodeMain.SaveApiKey | src/Code.ts:206-218 | a blank key is refused; otherwise the trimmed key is stored unless the service fails (same at src_backup/Code.ts:132-144) |
| CodeMain.ApiKeyReadBack | src/Code.ts:206-227 | after a successful save the key reads back trimmed and non-empty |
| CodeMain.IdCharsFrom | src/Code.ts:253 | true exactly when every character is in `[a-zA-Z0-9_-]` |
| CodeMain.SaveSpreadsheetId | src/Code.ts:245-264 | accepted exactly when the trimmed ID is well formed and the service works, and then stored trimmed; messages per case (same at src_backup/Code.ts:171-190) |
| CodeMain.SpreadsheetIdAcceptance | src/Code.ts:247-255 | well formed exactly when the trimmed ID has at least 20 characters, all of `[a-zA-Z0-9_-]` |
| CodeMain.WellFormedIdIsTrimmed | src/Code.ts:252-257 | a well-formed ID has no blank at either end, so it is stored as given |
| CodeMain.FindPostRow | src/Code.ts:1445-1453 | the first data row whose column A is the post id; the header is never matched; null otherwise |
| CodeMain.FindMetricRow | src/Code.ts:1532-1550 | the first data row of that post and capture time; an Invalid Date never matches |
| CodeMain.DeleteOldMetrics | src/Code.ts:1555-1571 | exactly the data rows captured before the cut-off are deleted, the header never |
| CodeMain.DeleteOldMetricsFacts | src/Code.ts:1562-1567 | every data row left is not older than the cut-off, and every such old-sheet row is still there |
| CodeMain.Hashtags | src/Code.ts:1458-1461 | every tag found is `#` followed by one or more tag characters |
| CodeMain.HashtagsOfText | src/Code.ts:1458-1461 | every tag occurs in the text; a text without `#` has none |
| CodeMain.JoinedTagsSplitBack | src/Code.ts:1460 | the joined text has one comma fewer than tags, and is empty exactly for no tags |
| CodeMain.ExtractHashtagsFacts | src/Code.ts:1458-1461 | the result is empty exactly when no tag is found, and otherwise holds the tags separated by commas |
| CodeMain.Recent | src/Code.ts:1339-1354 | the posts kept are exactly those with a timestamp in the last seven days |
| CodeMain.FoundPlusAdded | src/Code.ts:1389-1424 | every filtered post either updates its row or appends one |
| CodeMain.AddedRowsAreNew | src/Code.ts:1407-1423 | each appended row has 11 cells and belongs to a post whose id the sheet did not hold |
| CodeMain.PostMasterKeepsColumns | src/Code.ts:1389-1424 | outside column K the old rows keep every cell, and the sheet only grows |
| CodeMain.AddOrUpdatePosts | src/Code.ts:1317-1440 | the error cases (including a spreadsheet `openById` cannot open) with the sheet unchanged; otherwise the sheet becomes the post-master update and the counts are found and added |
| CodeMain.UpdatePostRows | src/Code.ts:1380-1424 | the loop makes the sheet the post-master update; the update count is the posts found, and added plus updated is the number of posts |
| CodeMain.MediaTypeOfPostType | src/Code.ts:2108 | `replace('_POST', '')` drops the suffix of `X_POST` and leaves a type without `_POST` as it is |
| CodeMain.MigratedMetricRow | src/Code.ts:2120-2141 | the metrics row has 10 cells; shares = reposts + quotes; its capture time is the fetch time or the record time |
| CodeMain.MigrateRowPosts | src/Code.ts:2090-2117 | one round appends at most one counted `posts` row, of an id not skipped and not already there |
| CodeMain.MigrateRowMetrics | src/Code.ts:2119-2143 | one round appends at most one counted metrics row, of a key not already there |
| CodeMain.MigrationPosts | src/Code.ts:2073-2117 | `posts` only grows, by its count; empty, `undefined` and `null` ids are skipped, and no id already there is appended |
| CodeMain.MigrationMetrics | src/Code.ts:2073-2144 | the metrics sheet only grows, by its count, and no (post, capture time) repeats |
| CodeMain.MigrateOne | src/Code.ts:2074-2143 | one loop round on the two sheets does what the migration step says |
| CodeMain.MigratePostStep | src/Code.ts:2094-2117 | the `posts` half of a round does what the migration step says for the post, the metrics sheet untouched |
| CodeMain.MigrateMetricStep | src/Code.ts:2119-2143 | a metrics row whose post and time the sheet lacks is appended and counted; otherwise nothing changes |
| CodeMain.MigrateMetricAppends | src/Code.ts:2121-2142 | with no row for the key, the metrics half appends the converted row and adds one to the count |
| CodeMain.MigrateMetricKeeps | src/Code.ts:2121-2123 | with a row for the key, the metrics half changes nothing |
| CodeMain.RoundOfSteps | src/Code.ts:2090-2143 | the `posts` half followed by the metrics half is one round of the migration |
| CodeMain.MigrateAll | src/Code.ts:2073-2144 | the loop leaves the sheets and counts of the migration over all rows |
| CodeMain.MigrateThreadsDataToNewSchema | src/Code.ts:2031-2157 | the error cases with `posts` unchanged; no data gives 0; with both sheets, migrated = migratedPosts + migratedMetrics; without `post_metrics_hourly`, what the run without it does |
| CodeMain.FirstMigratedFrom | src/Code.ts:2090-2092 | the first row whose id the migration does not skip; every row before it is skipped |
| CodeMain.MigrateWithoutMetricsSheet | src/Code.ts:2073-2155 | without `post_metrics_hourly`, the first row not skipped appends its post when new, and the run then fails with the migration error |
| CodeMain.MigrateThreadsDataAsIntended | src/Code.ts:2031-2157 | fails exactly in the four error cases; otherwise the metrics sheet (made with its header when missing) and `posts` hold the full migration |
| CodeMain.MissingMetricsSheetBreaksMigration | src/Code.ts:2041-2052 | one row into header-only sheets: as written without the metrics sheet the post is written and the run fails; as intended one post and one metric are migrated |
| CodeMain.BatchTriggerCount | src_backup/Code.ts:686-688 | the number of triggers whose handler is `hourlyBatchDataCollection` |
| CodeMain.BatchTriggerStatus | src_backup/Code.ts:683-702 | `isActive` exactly when such a trigger exists, `triggerCount` their number; a thrown error becomes the failure message |
| BatchLog.LogRowReadBack | src_backup/Code.ts:919-952 | the log row has the 8 cells in header order, a missing time or detail written as `''` |
| BatchLog.LogBatchExecution | src/Code.ts:1044-1110 | the sheet gains that one row (created with its header when missing) |
| BatchLog.CleanupOldLogs | src/Code.ts:1115-1138 | exactly the data rows before the cut-off are deleted, the header never (same at src_backup/Code.ts:968-991) |
| BatchLog.FoldCounts | src/Code.ts:1217-1253 | total, successful and failed count exactly the batch rows of the window, its successes and its failures |
| BatchLog.FoldBounds | src/Code.ts:1217-1253 | successful + failed ≤ total, consecutive failures ≤ failed, sums non-negative |
| BatchLog.FoldLastExecution | src/Code.ts:1226-1228 | the last execution is the date of the newest `BATCH_COMPLETED` row, unset only when there is none |
| BatchLog.StreakSinceLastSuccess | src/Code.ts:1216-1242 | under the intended rule, consecutive failures are the failures newer than the newest success |
| BatchLog.StreakOfNewest | src/Code.ts:1239-1241 | under the intended rule a newest failure is in the streak, and a newest success leaves none |
| BatchLog.RecentLogs | src/Code.ts:1285-1294 | the last ten rows, newest first, eight columns each |
| BatchLog.HealthyMeaning | src/Code.ts:1256-1284 | healthy exactly when consecutive failures < 3 and fewer than half the runs failed |
| BatchLog.AsWrittenStreakErased | src/Code.ts:1234-1241 | as written, any success in the window leaves the consecutive-failure count at 0 |
| BatchLog.ConsecutiveFailuresErased | src/Code.ts:1234-1241 | four successes then three failures: as written 0 and healthy; as intended 3 and not healthy |
| BatchLog.NewestRowHidesFailures | src/Code.ts:1239 | three failed runs, then a newer `INFO` `NO_POSTS` row: as written 0 consecutive failures; as intended 3 and not healthy |
| BatchLog.GetBatchExecutionStatusReal | src/Code.ts:1143-1303 | the missing-ID error, the error of a spreadsheet `openById` cannot open, the empty report (without `recentLogs`) with no logs, otherwise the report of the fold with the intended streak (same code at src_backup/Code.ts:996-1156) |
| DataProcessor.CategorizePostsByType | src_backup/dataProcessor.ts:34-60 | each counter is the number of posts of its media type |
| DataProcessor.TypeCountsAddUp | src_backup/dataProcessor.ts:34-60 | the four counters and the other types add up to the number of posts |
| DataProcessor.CalculateEngagementStats | src_backup/dataProcessor.ts:65-92 | totals are sums and maxima are largest values, all 0 for no posts; averages are the rounded means |
| DataProcessor.Average2 | src_backup/dataProcessor.ts:88-89 | the average is within half a hundredth of the exact mean |
| DataProcessor.LargestIsUpperBound | src_backup/dataProcessor.ts:78-84 | the maximum is at least every post's value |
| DataProcessor.LargestIsAttained | src_backup/dataProcessor.ts:78-84 | the maximum of a non-empty list is one of its values |
| DataProcessor.TotalAtMostCountTimesLargest | src_backup/dataProcessor.ts:74-89 | total ≤ posts × maximum, so no average exceeds the maximum |
| DataProcessor.AnalyzePostingTimes | src_backup/dataProcessor.ts:97-136 | 24 hour and 7 weekday buckets, each the number of posts at that hour or on that day |
| DataProcessor.HistogramsAddUp | src_backup/dataProcessor.ts:97-130 | both histograms add up to the number of posts with a valid timestamp |
| DataProcessor.LeadMatchesArePositions | src_backup/dataProcessor.ts:160-165 | the `#\w+` and `@\w+` counts are the signs directly before a word character |
| DataProcessor.UrlNeedsScheme | src_backup/dataProcessor.ts:168-169 | a text without `http` holds no URL |
| DataProcessor.UrlMatchesBound | src_backup/dataProcessor.ts:168-169 | every URL match takes at least eight characters |
| DataProcessor.Words | src_backup/dataProcessor.ts:172 | every word is a non-empty run of word characters |
| DataProcessor.AddWordsCounts | src_backup/dataProcessor.ts:172-180 | words longer than three characters (other than `__proto__`) are counted as often as they occur, others never |
| DataProcessor.CountWords | src_backup/dataProcessor.ts:174-179 | the inner loop counts the words as the counting function says |
| DataProcessor.SortIsDescending | src_backup/dataProcessor.ts:189-192 | the sort by count is descending |
| DataProcessor.CommonWordsSorted | src_backup/dataProcessor.ts:189-194 | at most ten entries, most frequent first |
| DataProcessor.CommonWordsCounted | src_backup/dataProcessor.ts:189-194 | each common word is a counted word longer than three characters (other than `__proto__`), with its count |
| DataProcessor.CommonWordsAreTop | src_backup/dataProcessor.ts:189-194 | no word left out was counted more often than the tenth shown |
| DataProcessor.ContentBounds | src_backup/dataProcessor.ts:154-169 | no more text posts than posts; tags and mentions take two units each, URLs eight |
| DataProcessor.WordCountsAreOccurrences | src_backup/dataProcessor.ts:172-180 | a word longer than three characters (other than `__proto__`) is counted as often as it occurs in the lowercased texts |
| DataProcessor.KeyOrderIsObjectKeys | src_backup/dataProcessor.ts:189-190 | `Object.keys` lists every counted word once, the array-index words first in ascending value, the others after them |
| DataProcessor.KeyOrderKeeps | src_backup/dataProcessor.ts:189-190 | `Object.keys` lists as many keys as were added, and exactly those |
| DataProcessor.IndexListedFirst | src_backup/dataProcessor.ts:189-190 | the words `hello` then `2024` are listed `2024` first |
| DataProcessor.AverageLength | src_backup/dataProcessor.ts:184-186 | 0 with no text posts, otherwise the rounded mean length |
| DataProcessor.AverageLengthAtLeastOne | src_backup/dataProcessor.ts:184-186 | with text posts, the average length is at least one |
| DataProcessor.AnalyzeContent | src_backup/dataProcessor.ts:141-197 | the content counts, the average length and the common words of the texts, ties kept in `Object.keys` order (array-index words first, ascending) |
| DataProcessor.AnalyzePostData | src_backup/dataProcessor.ts:14-29 | `totalPosts` is the number of posts; the type counts are the posts of each type and sum to at most that; the engagement totals, maxima and averages, the histograms and the whole content analysis are those of the posts |
| ReportGenerator.FirstMaximumFacts | src/reportGenerator.ts:101-110 | the count reported is the largest, at the lowest index holding it; hour 0 with 0 when none is positive |
| ReportGenerator.GetMostActiveHour | src/reportGenerator.ts:101-113 | the first maximum and the label `h:00-(h+1):00 (n投稿)` |
| ReportGenerator.GetMostActiveDay | src/reportGenerator.ts:118-140 | the first day with the largest positive count, named in Japanese or by its key |
| ReportGenerator.MostActiveWeekday | src/reportGenerator.ts:118-140 | on an analysis's weekdays the busiest day is a weekday shown in Japanese, unless no post has a time |
| ReportGenerator.ReportShape | src/reportGenerator.ts:61-92 | the report table is 27 rows of 4 cells |
| ReportGenerator.SectionRowsAreHeadings | src/reportGenerator.ts:145-165 | rows 4, 11, 19 and 25 are exactly those whose first cell begins with ■ |
| ReportGenerator.GenerateReportContent | src/reportGenerator.ts:59-96 | a new sheet holding the table, with the busiest hour and weekday of the analysis |
| ReportGenerator.PostTypeChartData | src/reportGenerator.ts:190-215 | a header and the four type rows, two cells each |
| ReportGenerator.HourlyChartData | src/reportGenerator.ts:220-242 | a header and one row per hour |
| ReportGenerator.DailyChartData | src/reportGenerator.ts:247-279 | a header and one row per entry, weekdays named in Japanese |
| ReportGenerator.DailyChartNames | src/reportGenerator.ts:249-261 | the seven weekdays are named 日 to 土, Sunday first |
| Text.JoinSplit | scripts/fix-all.py:41 | joining the split lines with `\n` gives the text back |
| Text.TrimIdempotent | src/Code.ts:207-213 | trimming twice is trimming once |
| Common.Round | src/Code.ts:1257 | `Math.round` gives the nearest integer, a half going up |

## Left out

- The Threads HTTP client (src/threadsApi.ts) and the API calls from `Code.ts`. Their results are inputs.
- The trigger set-up (src/triggerManager.ts, ScriptApp). Only the handler-name filter of `getBatchTriggerStatus` is modelled.
- File I/O and orchestration: `main` and `convert_file` in the Python scripts, the file loops of manual-build.js and post-build.js, and scripts/post-build-tsc.js.
- The one-off patch scripts (fix-all-returns.js, fix-syntax.js, fix-try-catch.js, final-fix.js, final-fix.py). Each replaces fixed literal snippets and has no general behaviour.
- src/types.ts and src_backup/types.ts: types only, no behaviour.
- Floating point. `toFixed(2)` is modelled on exact rationals through `Hundredths`, and `Math.round` exactly through `Common.Round`; binary rounding effects are not modelled.
- Dates. `new Date(…)` parsing is a parameter, and `getHours`/`getDay` are inputs. Time zones, `truncateToHour` and `Utilities.formatDate` are not modelled.
- JSON. `JSON.stringify`/`JSON.parse` are an abstract codec that reads back what it writes, so the failure path of `safeJsonStringify` is not modelled. Where stored text is parsed without a codec (`getHistory`, `getStatistics`), whether `JSON.parse` accepts it is a parameter.
- DataManager.DataManager.GetDataSize: models the older copy's `value.length`. The `Blob` byte size of src/dataManager.ts:259-280 is not modelled.
- `getStoredPostData`/`getAnalysisResult`: each is one property read and a JSON parse. This is covered by `DataManager.Stored` and the codec; there is no separate member.
- `formatDateSafely`, `getSpreadsheetSafely`, `getSheetSafely`: wrappers around services not modelled.
- Sheet styling, charts, column widths and PDF export in src/reportGenerator.ts. Only the data written is modelled.
- `doGet`/`doPost`, HtmlService responses and console logging.
- `Utilities.sleep`: only the durations are kept, as `GasUtils.Backoff`.
- `\w` in Python patterns is Unicode-aware. The model accepts ASCII word characters plus kana and CJK ideographs, not every Unicode letter or digit.
- `toLowerCase` is approximated by `DataProcessor.LowerChar`. It is exact for how `\w` splits words, but not for the letters outside ASCII it produces.
- `ConvertTsToJs.RemoveTypescriptTypes`, `ManualBuild.ConvertToJavaScript`, `PostBuild.ExpandObjectShorthand` and `PostBuild.TransformForGAS` are the rule chains themselves. Their properties are stated by the rule lemmas above, not by a contract of their own.
- DataProcessor.AnalyzeContent: a word that names an inherited `Object.prototype` member longer than three characters (`constructor`, `toString`, `valueOf`, `hasOwnProperty`, …) is counted as a number like any other word. In the engine its count becomes a text and its place after the sort is implementation-defined. `__proto__` is modelled: it is never counted.
- DataProcessor.AnalyzePostingTimes: a timestamp `new Date` cannot read updates none of the buckets 0–23 and none of the seven weekday keys. The extra `NaN` property of the hour array and the extra `undefined: NaN` weekday key it adds are not represented (counts are `nat`), so the extra `["undefined", NaN]` row `createDailyChart` writes for it is not modelled either.
- Sheets.Sheet: a cell holds what was written. Sheets turns numeric-looking text into numbers; the model does not, and assumes every id reads back as the text written.
- SpreadsheetManager.UpsertKeepsKeysUnique: assumes post ids read back as the text written. A numeric-looking id that Sheets stores as a number would not match on the next look-up.
- BatchProcessor.SweepKeepsKeysUnique: assumes post ids read back as the text written, as above.
- CodeMain.FindPostRow: assumes column A reads back as the text written. A numeric-looking id stored as a number would not be found with `===`.
- CodeMain.UpdatePostRows: assumes column A reads back as the text written; an id Sheets stored as a number would be appended again instead of updated.
- CodeMain.AddOrUpdatePosts: assumes ids read back as the text written, as above; the post master update (`CodeMain.PostMaster`) rests on the same assumption.
- GasUtils.ScriptProperties.LogError: a stored history that parses to something other than an array makes `unshift` throw and nothing is saved. The model's codec reads back only lists, so it saves `[entry]` in that case.
- SpreadsheetManager.DataRow: a post timestamp that `new Date` cannot parse (stored as an Invalid Date) is not representable. The model takes the timestamp as a parsed time in milliseconds, or none.
- Sorting: `SpreadsheetManager.SortByFetchTime` is a stable insertion sort. It agrees with `Array.prototype.sort` only when every fetch time is a valid date; rows with an Invalid Date give an unspecified order in the engine.

## Findings

| source | as written | input that shows it | evidently intended | confidence | as-written member | corrected member |
|---|---|---|---|---|---|---|
| src/Code.ts:2041-2052, 2128-2130 | when `post_metrics_hourly` is missing, `initializeSpreadsheetDatabase` is called, but it makes only `posts` and `logs`. `metricsSheet!.appendRow` then throws on `null` in the first round not skipped, after that round's `posts` row was written | a `ThreadsData` sheet with one row of post `p1`, no `post_metrics_hourly` sheet: one `posts` row written, result `データ移行エラー: Cannot read properties of null (reading 'appendRow')` | the metrics sheet is made before the loop; the post and its metrics row are both migrated | not executed | CodeMain.MissingMetricsSheetBreaksMigration | CodeMain.MigrateThreadsDataAsIntended |
| src/Code.ts:1239 (same at src_backup/Code.ts:1092) | a failure starts the count only when it is the sheet's newest row (`i === logs.length - 1`), whatever that row's type. A newer non-batch row, such as the `INFO` `NO_POSTS` or `ERROR` `FETCH_POSTS_FAILED` row of src/Code.ts:915-925, keeps the count at 0 | three failed batch runs followed by an `INFO` `NO_POSTS` row: reported `consecutiveFailures` 0 | the count starts at the newest counted batch run: 3 failures in a row, not healthy | not executed | BatchLog.NewestRowHidesFailures | BatchLog.GetBatchExecutionStatusReal |
| src/Code.ts:1234-1241 (same at src_backup/Code.ts:1070-1100) | the loop runs newest first and a SUCCESS resets `consecutiveFailures` to 0. Any older success in the 30-day window therefore erases the failures counted so far | four successful batch runs followed by three failed ones: reported `consecutiveFailures` 0, `isHealthy` true | the failures newer than the newest success: 3 failures in a row, not healthy | not executed | BatchLog.ConsecutiveFailuresErased | BatchLog.GetBatchExecutionStatusReal |
