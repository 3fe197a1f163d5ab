# AliasFinder backend, modelled in Dafny

AliasFinder finds the manufacturer of an electronic part from its part number. The user may also give a manufacturer hint. The backend asks web search providers, downloads datasheets, applies text heuristics and, as a last resort, asks an AI model. It records the outcome of each stage of the search and stores the result as a part row.

This project models that backend as a Dafny program, one module per source file:

- `OptimizedSearchEngine` is the staged engine. It covers:
  - reuse of a stored result;
  - stage 1, a plain web search judged by the domain and by text heuristics;
  - stage 2, the search for datasheet URLs;
  - stage 3, AI analysis of the downloaded documents, each removed again afterwards;
  - the three-entry `stage_history` (`Internet`, `Document Search`, `AI Analysis`);
  - storing the result.
- `SearchEngine` is the legacy engine. It covers:
  - URL aggregation with escalation to Google Custom Search and then to the fallback provider;
  - manufacturer guessing from document lines;
  - the best-candidate choice;
  - manufacturer resolution and case-insensitive alias syncing.
- `SearchProviders` covers:
  - the retry loops of the two Google providers;
  - result shaping for every provider;
  - `_clean_link`;
  - the once-per-instance OpenAI balance check;
  - the default provider list.
- `DocumentParser` covers the fetch retry policy, PDF sniffing and its HTML fallback, and the line post-processing of the extractors.
- `Throttle` covers the sliding-window rate limiter and the search cache with hit and miss counters.
- `TelegramNotifier` covers send gating, error messages, low-balance alert de-duplication and the connection test.
- `Importer` covers cell normalisation and the row loop with its counters.
- `Exporter` covers the Excel row projection and the PDF line sequence.
- `Config` covers splitting of the allowed origins.
- `Http` covers defaulting of the HTTP client keyword arguments.
- `Parts`, `Text` and `Wrappers` hold the shared records, string helpers, and `Option`/`Result`.

Everything outside the process becomes a parameter. That includes:

- replies of search providers, HTTP fetches, PDF and HTML parsers, and AI answers;
- fuzzy scores (`WRatio`, `partial_ratio`, `extractOne`);
- `urlparse(...).hostname`;
- `normalize_manufacturer_name`, `KNOWN_MANUFACTURERS` and `DOMAIN_MANUFACTURER_HINTS`;
- clock readings and the lateness of sleeps.

A provider that raises is a `None` reply. Every branch is therefore a function of its inputs.

Database tables are classes:

- `SearchEngine.PartStore` holds the stored `Part` objects in insertion order.
- `SearchEngine.ManufacturerTable` holds the manufacturer rows.
- `OptimizedSearchEngine.TempDir` holds the set of temporary document files.
- `TelegramNotifier.Settings` holds the notification settings row.
- `TelegramNotifier.BotApi` records the posts made to the Telegram Bot API.

Code that updates state step by step is written as methods with loops. Each is proved equal to a specification function, and the promised properties are proved about that function. This applies to the search loops, the de-duplication loops, the stage sequence, the retry loops, the importer and exporter loops, and the rate limiter.

Where code and documentation differ, the model follows the code:

- The stage outcomes are only `success`, `no-results` and `skipped`. No stage of the backend reports `low-confidence`.
- The browser-side progress display and table filtering are not part of this model.

Some behaviours are modelled as written, even though they may surprise:

- An alert for a balance of exactly zero is never suppressed, because a stored zero is falsy (`TelegramNotifier.ZeroBalanceAlertsRepeat`).
- In stage 1, when the first result of a query has a `title` of JSON `null`, the debug line raises. The results of that query are dropped, and the loop goes on with the next query. Only the first result is inspected. In stage 2, the `.lower()` on a `null` title ends the loop over that reply.
- In stage 3, a PDF the reader cannot parse gives no text. There is no HTML fallback there, unlike `extract_text`.
- The web scraper checks its limit only after appending a result, so a non-positive `max_results` still returns one result.

## Model

| member | source | states |
|---|---|---|
| Config.SplitOrigins | backend/app/core/config.py:23-28 | A list passes through unchanged. From a string, the origins are the stripped comma-separated pieces that are not empty, in order. A value is an origin iff it is non-empty and is the stripped form of some piece. Every origin contains no comma and has no surrounding whitespace. |
| Config.SplitOriginsJoin | backend/app/core/config.py:26-27 | Clean origins joined with commas split back into the same origins, in the same order. |
| Config.SplitOriginsConcat | backend/app/core/config.py:26-27 | Splitting two strings joined by a comma gives the origins of the first followed by those of the second. |
| Text.StrippedNonBlankMembers | backend/app/core/config.py:27 | A value is kept by `[p.strip() for p in pieces if p.strip()]` iff it is non-empty and is the stripped form of some piece. |
| Http.ClientKwargs | backend/app/core/http.py:10-18 | `timeout` is always present. The caller's value is kept, and the 30 s default is added only when it is absent. `proxies` is present iff the caller gave one or a proxy is configured, and a caller's `proxies` wins. Every caller key keeps its value, and no other key is added. |
| Parts.Part.constructor | backend/app/models/part.py:32-45 | A new part row holds its number and manufacturer link, with every result field empty. |
| DocumentParser.AsDownload | backend/app/services/document_parser.py:47-48 | A getter call yields content and content type exactly when it succeeded. |
| DocumentParser.AttemptFetch | backend/app/services/document_parser.py:44-70 | There are one to three getter calls, and only the last may be `getter(False)`. A first success returns at once. A certificate failure gets exactly one retry with `getter(False)`, which ends the fetch. Any other first failure sleeps 1 s and tries once more. A second ordinary failure gives nothing. |
| DocumentParser.LStripBytes | backend/app/services/document_parser.py:91 | The result is a suffix of the data that does not start with whitespace. |
| DocumentParser.SniffIgnoresLeadingSpace | backend/app/services/document_parser.py:91-93 | Leading whitespace never changes the PDF verdict. |
| DocumentParser.MagicIsPdf | backend/app/services/document_parser.py:91 | Data that starts with `%PDF` is a PDF whatever the content type says. |
| DocumentParser.HintedPdf | backend/app/services/document_parser.py:92 | A content type that mentions `PDF` in any case makes the data a PDF. |
| DocumentParser.PageTexts | backend/app/services/document_parser.py:75 | There is one text per page, and a page with no text counts as empty. |
| DocumentParser.PdfPagesAreLines | backend/app/services/document_parser.py:73-75 | Pages whose text has no line end come back one per line, in page order. |
| DocumentParser.ExtractTextFromHtml | backend/app/services/document_parser.py:78-82 | The output is empty iff no line has non-blank text. Otherwise its lines are exactly the stripped non-blank lines, in order. |
| DocumentParser.JoinedLines | backend/app/services/document_parser.py:82 | Non-empty lines without line ends, joined with line ends, split back into themselves. |
| DocumentParser.ExtractText | backend/app/services/document_parser.py:85-103 | There is no text without a download. PDF-looking data that the PDF reader parses gives the page text. A reader failure gives the HTML text of the same bytes, and so does data that does not look like a PDF. The reader failure stands for `PdfReadError`, `PdfStreamError` or `ValueError`. |
| DocumentParser.ExtractFromUrls | backend/app/services/document_parser.py:106-119 | The map holds exactly the given URLs whose text is non-empty, each mapped to that text. |
| Exporter.ExcelRow | backend/app/services/exporter.py:22-28 | The record has exactly the five export columns, each holding the part's own value. The part number is text. The manufacturer name, alias and source URL are text, or a blank when absent. The confidence is a number, or a blank when absent. Only the confidence column ever holds a number. |
| Exporter.ExcelRows | backend/app/services/exporter.py:20-31 | There is one record per part, in query order. |
| Exporter.ExcelRowsHaveTheColumns | backend/app/services/exporter.py:22-28 | Every record's keys are exactly the five columns. |
| Exporter.ExcelHeader | backend/app/services/exporter.py:20-31 | The sheet has the five columns unless there are no parts, in which case it has none. |
| Exporter.OrDash | backend/app/services/exporter.py:51-54 | A missing or empty value renders as `-`, and anything else as itself. |
| Exporter.ConfidenceText | backend/app/services/exporter.py:53 | Only a missing confidence renders as `-`, so zero is printed as a number. |
| Exporter.PartBlock | backend/app/services/exporter.py:50-55 | One part gives six calls, the last being the 4 mm gap. |
| Exporter.PdfBody | backend/app/services/exporter.py:49-55 | The body has six calls per part. |
| Exporter.PdfBodyBlock | backend/app/services/exporter.py:49-55 | Part `i` occupies exactly calls `6i` to `6i+5` of the body, and they are that part's own block. |
| Exporter.RenderPart | backend/app/services/exporter.py:50-55 | One loop iteration appends exactly that part's block. |
| Exporter.RenderBody | backend/app/services/exporter.py:49-55 | The loop produces exactly the specified body. |
| Exporter.RenderPdf | backend/app/services/exporter.py:46-55 | The document is the title cell followed by the body. |
| Importer.Normalize | backend/app/services/importer.py:17-23 | `None` and NaN give nothing, and text gives nothing iff it is blank. A value is non-empty, has no surrounding whitespace and occurs in the cell text. |
| Importer.NormalizeIdempotent | backend/app/services/importer.py:22-23 | Normalising a normalised value changes nothing. |
| Importer.MissingColumns | backend/app/services/importer.py:34-35 | The missing columns are exactly the required ones the sheet lacks. |
| Importer.StoredNumbers | backend/app/services/importer.py:49-51 | The stored part numbers are counted with multiplicity, one per stored part. |
| Importer.RowItem | backend/app/services/importer.py:44-48 | A row has an item iff its part number normalises, and the item carries that normalised number. |
| Importer.RowStep | backend/app/services/importer.py:44-59 | A blank number is skipped without a lookup. A number stored once is skipped. A number stored twice makes the lookup raise. A search runs or fails iff the number is not stored. It fails iff the search raises, and the failure carries that exception text. |
| Importer.Tally | backend/app/services/importer.py:45-59 | A skip adds one to `skipped`. A search that ran adds one to `imported`. A failure appends its message to `errors`. The other counters and the earlier errors stay as they were. |
| Importer.ImportRows | backend/app/services/importer.py:43-59 | When the loop completes, the counters account for every row and the errors only grow. The only abort is the duplicate-row lookup error. |
| Importer.Import | backend/app/services/importer.py:34-61 | Missing columns raise `Missing columns: ...` before any row. Otherwise `imported + skipped + len(errors)` equals the row count. |
| Importer.RepeatedRowSkipped | backend/app/services/importer.py:49-56 | Once a search has stored a part number, a later row with that number is skipped. |
| Importer.FailedRowRetried | backend/app/services/importer.py:54-59 | A failed search stores nothing, so the same number is searched again on a later row. |
| Importer.ProcessRow | backend/app/services/importer.py:44-59 | One row on the store does what `RowStep` says, and the stored numbers change as `StoredAfter` says. A skip, a failed search or a raised lookup changes neither table. When the search ran, its effect on both tables is exactly `StoredBest` for the row's part. |
| Importer.SearchRow | backend/app/services/importer.py:55 | The search has the effect `StoredBest` states for the row's part. It stores its part number exactly when it finds candidates. |
| Importer.ImportRowsLoop | backend/app/services/importer.py:39-59 | The row loop computes exactly `ImportRows` from the store's initial part numbers. |
| Importer.ImportParts | backend/app/services/importer.py:26-61 | The whole import computes `Import`, and missing columns leave both tables untouched. |
| OptimizedSearchEngine.EvaluateMatch | backend/app/services/optimized_search_engine.py:597-610 | With no submitted name there is no status. With no resolved name the status is `pending`. Otherwise the status is `matched` iff the score is at least 70, else `mismatch`, and the confidence is score/100. All cases are stated both ways. |
| OptimizedSearchEngine.FirstDomainHit | backend/app/services/optimized_search_engine.py:478-480 | There is no hit iff the host equals no hint domain and lies under none. |
| OptimizedSearchEngine.FirstDomainHitIsFirst | backend/app/services/optimized_search_engine.py:478-480 | The first matching domain in table order decides the manufacturer. |
| OptimizedSearchEngine.ManufacturerFromDomain | backend/app/services/optimized_search_engine.py:470-483 | There is a manufacturer iff there is a non-empty host whose lower-cased form matches some hint domain. |
| OptimizedSearchEngine.KnownTierNeedsPartNumber | backend/app/services/optimized_search_engine.py:498-520 | Without a part-number match, no known manufacturer qualifies. |
| OptimizedSearchEngine.FirstMentionedDecides | backend/app/services/optimized_search_engine.py:498-520 | The first known manufacturer the text mentions decides. It gives the exact tier, else the normalized tier, else nothing from the known list. |
| OptimizedSearchEngine.NoKnownMentioned | backend/app/services/optimized_search_engine.py:498-499 | A text that mentions no known manufacturer gives no known-tier hit. |
| OptimizedSearchEngine.AnalyzeText | backend/app/services/optimized_search_engine.py:485-536 | A candidate has the given URL and a confidence of 0.90, 0.85 or 0.80. At 0.90 it is a known manufacturer mentioned in the text, with the exact part number. At 0.85 it is a known manufacturer mentioned in the text, where the part number is found only after removing spaces and `-`. At 0.80 it is the mentioned hint, with the part number found after that removal. |
| OptimizedSearchEngine.KnownTierSound | backend/app/services/optimized_search_engine.py:498-520 | An exact or normalized hit names a known manufacturer that the text mentions, and its part-number test passed. |
| OptimizedSearchEngine.HintTierOnlyWithoutKnownMatch | backend/app/services/optimized_search_engine.py:522-534 | The hint tier (0.80) is reached only if no known manufacturer is mentioned, or the part number matches neither exactly nor normalized. |
| OptimizedSearchEngine.FirstMentioned | backend/app/services/optimized_search_engine.py:498-499 | If any known manufacturer is mentioned, there is a first one in list order. |
| OptimizedSearchEngine.FirstKnownWins | backend/app/services/optimized_search_engine.py:498-509 | The first mentioned known manufacturer, with an exact part-number hit, gives exactly the 0.90 candidate. |
| OptimizedSearchEngine.FirstKnownWinsNormalized | backend/app/services/optimized_search_engine.py:498-520 | Without an exact hit but with a normalized part-number hit, the first mentioned known manufacturer gives exactly the 0.85 candidate. |
| OptimizedSearchEngine.NoCandidate | backend/app/services/optimized_search_engine.py:485-536 | There is no candidate iff neither tier qualifies. The known tier fails when no known manufacturer is mentioned or the part number matches neither exactly nor normalized. The hint tier fails when the hint is falsy, not mentioned, or the part number is not found. |
| OptimizedSearchEngine.HasKeyword | backend/app/services/optimized_search_engine.py:548-550 | True iff some keyword occurs in the lower-cased URL or title. |
| OptimizedSearchEngine.IsLikelyDocument | backend/app/services/optimized_search_engine.py:538-552 | True iff the lower-cased URL ends in `.pdf`, `.doc` or `.docx`, or a datasheet keyword occurs in the lower-cased URL or title. |
| OptimizedSearchEngine.WebProviders | backend/app/services/optimized_search_engine.py:154 | These are exactly the providers other than OpenAI. |
| OptimizedSearchEngine.SimpleQueries | backend/app/services/optimized_search_engine.py:163-169 | The queries are: the hint query first, then the Latin-form query exactly when it differs, with the bare part number always last. |
| OptimizedSearchEngine.HintedDocumentQueries | backend/app/services/optimized_search_engine.py:273-278 | For each keyword there is the hint query, followed by the Latin query exactly when the Latin form differs. |
| OptimizedSearchEngine.DocumentQueries | backend/app/services/optimized_search_engine.py:269-281 | Without a hint, there is one `part keyword` query per datasheet keyword, in order. |
| OptimizedSearchEngine.GatherExtends | backend/app/services/optimized_search_engine.py:174-194 | Gathering results only appends to what is already held. |
| OptimizedSearchEngine.GatherQueriesExtends | backend/app/services/optimized_search_engine.py:177-190 | One provider's queries only append to the results held. |
| OptimizedSearchEngine.HintAlias | backend/app/services/optimized_search_engine.py:217 | The alias is the hint exactly when the hint is truthy. |
| OptimizedSearchEngine.MetadataStep | backend/app/services/optimized_search_engine.py:199-225 | A candidate comes from a result with a link, and carries that link. Only a `null` title raises. A non-empty domain hint for the link's host gives that manufacturer at 0.95, and every 0.95 candidate is such a hit. A hint mapped to an empty name is no hit, as `if manufacturer:` tests, so the title and snippet analysis decides: any other candidate is `AnalyzeText`'s on them. |
| OptimizedSearchEngine.ScanMetadata | backend/app/services/optimized_search_engine.py:199-225 | A metadata candidate's URL is the link of one of the scanned results. |
| OptimizedSearchEngine.ScanPages | backend/app/services/optimized_search_engine.py:229-247 | A page candidate's URL is the link of one of the scanned results. |
| OptimizedSearchEngine.Stage1FromCollectedResults | backend/app/services/optimized_search_engine.py:196-247 | A stage-1 candidate comes from one of the first ten collected results. |
| OptimizedSearchEngine.GatherWebHits | backend/app/services/optimized_search_engine.py:174-194 | The nested provider and query loops, with their breaks at ten results, compute exactly `GatherHits`. |
| OptimizedSearchEngine.SimpleWebSearch | backend/app/services/optimized_search_engine.py:137-249 | `_simple_web_search` computes `Stage1`, so a stage-1 candidate comes from one of the first ten collected results. |
| OptimizedSearchEngine.ContextWindow | backend/app/services/optimized_search_engine.py:574-576 | The window holds only input lines and contains its centre line. |
| OptimizedSearchEngine.MentionContext | backend/app/services/optimized_search_engine.py:571-576 | The context holds only input lines. |
| OptimizedSearchEngine.MentionedLineInContext | backend/app/services/optimized_search_engine.py:571-576 | Every line that mentions the needle is in the gathered context. |
| OptimizedSearchEngine.UniqueLines | backend/app/services/optimized_search_engine.py:588-593 | The result holds exactly the non-blank input lines, without duplicates. |
| OptimizedSearchEngine.RelevantLinesProperties | backend/app/services/optimized_search_engine.py:554-595 | Every kept line is a non-blank input line, and none is kept twice. Every non-blank line among the first ten is kept, and so is every non-blank line that mentions the part number. |
| OptimizedSearchEngine.AppendContext | backend/app/services/optimized_search_engine.py:571-585 | One context loop appends exactly the windows around the mentioning lines. |
| OptimizedSearchEngine.GatherRelevant | backend/app/services/optimized_search_engine.py:563-585 | The gathering loops compute exactly the collected lines. |
| OptimizedSearchEngine.UniqueNonBlank | backend/app/services/optimized_search_engine.py:588-593 | The `seen` loop computes exactly `UniqueLines`. |
| OptimizedSearchEngine.ExtractRelevantText | backend/app/services/optimized_search_engine.py:554-595 | `_extract_relevant_text` computes exactly the relevant text. |
| OptimizedSearchEngine.AcceptedLinks | backend/app/services/optimized_search_engine.py:291-294 | One reply adds at most one URL per result. |
| OptimizedSearchEngine.AcceptedLinksAreDocuments | backend/app/services/optimized_search_engine.py:291-294 | Every accepted URL is the link of a result that `_is_likely_document` accepts. |
| OptimizedSearchEngine.DocumentUrlsFromReplies | backend/app/services/optimized_search_engine.py:286-300 | Every collected URL was accepted from the reply of some provider to some query. |
| OptimizedSearchEngine.DocumentQueriesFromReplies | backend/app/services/optimized_search_engine.py:288-298 | Every URL one provider collects comes from its reply to some query. |
| OptimizedSearchEngine.Stage2 | backend/app/services/optimized_search_engine.py:251-306 | Stage 2 returns at most three URLs, none repeated. |
| OptimizedSearchEngine.Stage2Documents | backend/app/services/optimized_search_engine.py:286-306 | Each stage-2 URL was accepted as a document link from a web provider's reply to a stage-2 query. |
| OptimizedSearchEngine.AcceptDocuments | backend/app/services/optimized_search_engine.py:291-294 | The result loop computes exactly `AcceptedLinks`. |
| OptimizedSearchEngine.CollectFromProvider | backend/app/services/optimized_search_engine.py:288-298 | The query loop, with its break at five URLs, computes `DocumentQueriesOf`, so every URL comes from that provider's reply to some query. |
| OptimizedSearchEngine.CollectDocuments | backend/app/services/optimized_search_engine.py:286-300 | The provider loop computes exactly `DocumentUrls`. |
| OptimizedSearchEngine.SearchForDocuments | backend/app/services/optimized_search_engine.py:251-306 | `_search_for_documents` computes `Stage2`: at most three URLs, none repeated, each from a web provider's reply to a stage-2 query. |
| OptimizedSearchEngine.DownloadOf | backend/app/services/optimized_search_engine.py:308-340 | A download succeeds iff the fetch did and the data is at most 10 MiB, and then it is the fetched data. |
| OptimizedSearchEngine.DocumentText | backend/app/services/optimized_search_engine.py:364-374 | There is no text iff the data looks like a PDF and the reader fails. PDF data gives the page text, and other data gives the HTML text. |
| OptimizedSearchEngine.AiText | backend/app/services/optimized_search_engine.py:379-383 | The AI sees a prefix of the relevant text of at most 3000 characters, or all of it when it fits. |
| OptimizedSearchEngine.ReplyConfidenceValue | backend/app/services/optimized_search_engine.py:439 | A missing confidence is 0.7, and only a non-number raises. |
| OptimizedSearchEngine.AiCandidate | backend/app/services/optimized_search_engine.py:342-459 | A candidate needs an OpenAI client, document text and a truthy manufacturer in the reply. Its name is the normalised reply and its confidence is the reply's. Its URL is the document's, and its alias is the truthy hint. |
| OptimizedSearchEngine.Stage3 | backend/app/services/optimized_search_engine.py:741-760 | A stage-3 candidate comes from one of the document URLs. |
| OptimizedSearchEngine.Opened | backend/app/services/optimized_search_engine.py:741-763 | Only document URLs are downloaded. |
| OptimizedSearchEngine.WinnerWasOpened | backend/app/services/optimized_search_engine.py:741-763 | The winning document was downloaded, and so it is removed again. |
| OptimizedSearchEngine.AllDownloadsOpenedWithoutAnswer | backend/app/services/optimized_search_engine.py:741-763 | Without an answer, exactly the URLs whose download succeeded were opened and removed. |
| OptimizedSearchEngine.TempDir.Write | backend/app/services/optimized_search_engine.py:329-330 | Writing adds the document's file. |
| OptimizedSearchEngine.TempDir.Remove | backend/app/services/optimized_search_engine.py:461-468 | Cleanup removes the document's file. |
| OptimizedSearchEngine.AnalyzeDownloaded | backend/app/services/optimized_search_engine.py:746-763 | A downloaded document yields the AI's candidate, and its file is gone afterwards (try/finally). |
| OptimizedSearchEngine.TryDocument | backend/app/services/optimized_search_engine.py:742-763 | One URL yields `DocumentStep`. Its file is removed iff it was downloaded. |
| OptimizedSearchEngine.AnalyzeDocuments | backend/app/services/optimized_search_engine.py:741-763 | The stage-3 loop computes `Stage3` and leaves none of the files it opened, including the winner's. |
| OptimizedSearchEngine.Pipeline | backend/app/services/optimized_search_engine.py:677-803 | There is exactly one entry per stage, in order. A stage-1 hit skips stages 2 and 3. Stage 2 succeeds iff stage 1 failed and it found URLs, at most three. No URLs skips stage 3. Stage 3 succeeds iff it found the candidate. A candidate exists iff stage 1 or stage 3 succeeded. |
| OptimizedSearchEngine.RunStages | backend/app/services/optimized_search_engine.py:677-803 | The history is built entry by entry and equals `Pipeline`. Every document opened is removed. |
| OptimizedSearchEngine.RunDocumentStages | backend/app/services/optimized_search_engine.py:725-803 | After a failed stage 1, the history and candidate are those of `Pipeline` for stages 2 and 3. Every document opened is removed. |
| OptimizedSearchEngine.LatestIndex | backend/app/services/optimized_search_engine.py:631-632 | The stored part is the newest one with the number, or there is none with it. |
| OptimizedSearchEngine.LatestIndexOfAppended | backend/app/services/optimized_search_engine.py:631-632 | A part just added is the newest with its number. |
| OptimizedSearchEngine.CachedResult | backend/app/services/optimized_search_engine.py:640-675 | A cache answer has stage `cache` and all three stages `skipped`. It carries the stored name, alias, confidence and URL, and the stored debug text only in debug mode. The submitted hint is kept, with the match evaluation of the hint against the stored name. |
| OptimizedSearchEngine.NotFoundResult | backend/app/services/optimized_search_engine.py:822-834 | There is no manufacturer, confidence, URL or stage. The alias and the submitted manufacturer are the hint, and the status is `pending`. The history is kept. In debug mode the debug text is `No manufacturer found`. |
| OptimizedSearchEngine.SaveNotFound | backend/app/services/optimized_search_engine.py:805-834 | With a truthy hint, the newest stored part or a new one records the hint as pending, and nothing else changes: the existing part keeps its manufacturer link and name, alias, confidence, URL and stage, and a new part has none of these. Otherwise nothing is stored. |
| OptimizedSearchEngine.FoundResult | backend/app/services/optimized_search_engine.py:877-893 | The result carries the resolved name, the candidate's fields, the stage, the history, and the match of the hint against that name. |
| OptimizedSearchEngine.SaveFound | backend/app/services/optimized_search_engine.py:836-893 | The normalised manufacturer resolves to the first row equal to it ignoring case, or to a new row appended with that name. The candidate's alias is synced into that row and is then known ignoring case, and no other row changes. The newest stored part, or a new one, is linked to that row and records the found result under the row's name. |
| OptimizedSearchEngine.Record | backend/app/services/optimized_search_engine.py:860-869 | The target part holds every field of the result and the manufacturer link. |
| OptimizedSearchEngine.SearchAndStore | backend/app/services/optimized_search_engine.py:677-893 | After the stages, the history is `Pipeline`'s and every opened document is removed. Not found gives `NotFoundResult`, with the pending record exactly when a hint was given, and leaves the manufacturer table unchanged. Found raises iff normalisation fails, which changes nothing. Otherwise the manufacturer table changes as `SaveFound` states, and the newest stored part (or a new one) is linked to the resolved row and records the found result. A stored result with a manufacturer, whose hint was absent or matched, makes the next call a cache hit. |
| OptimizedSearchEngine.SearchPart | backend/app/services/optimized_search_engine.py:612-893 | Every answer has three stage entries. When the cache applies, the answer is the cached result and no object changes: not the manufacturer table, the store, its parts or the temporary directory. Only the newest stored part with the number may change, so a part with another number is untouched on every path. Otherwise every promise of `SearchAndStore` holds, collected in `SearchedAndStored`. That covers the removed documents, the not-found result with its pending record, and the normalisation failure. It also covers the found result: the resolved and synced manufacturer row, and the stored part linked to that row. |
| SearchEngine.LinksOf | backend/app/services/search_engine.py:78 | The links are exactly the truthy `link` values of the hits, never empty. |
| SearchEngine.LinksOfAppend | backend/app/services/search_engine.py:78 | Links keep the order of the hits. |
| SearchEngine.SearchWithProvider | backend/app/services/search_engine.py:70-78 | A raising provider gives no URLs. Otherwise the result is exactly the reply's links. |
| SearchEngine.PrimaryUrls | backend/app/services/search_engine.py:83-84 | No primary providers means no URLs, and every URL is non-empty. |
| SearchEngine.EscalatedUrls | backend/app/services/search_engine.py:83-88 | URLs from the primary providers are used alone. When those are empty and Google is configured and finds URLs, Google's URLs are the result. The fallback is asked iff the primary providers found nothing and a configured Google found nothing, and then its URLs are the result. |
| SearchEngine.AggregateUrls | backend/app/services/search_engine.py:80-95 | Google is asked iff the primary providers gave nothing. The fallback is asked iff there is still nothing. The result is the collected URLs de-duplicated in first-seen order. |
| SearchEngine.UniqueUrls | backend/app/services/search_engine.py:89-95 | The `seen` loop computes exactly the order-preserving de-duplication. |
| SearchEngine.CandidateLineTiers | backend/app/services/search_engine.py:119-124 | The candidate lines are: the lines mentioning the part number; else the lines mentioning a given hint; else the first 20 lines. There are candidates whenever there are lines. |
| SearchEngine.StripIsNoop | backend/app/services/search_engine.py:127 | Stripping punctuation from alphabetic tokens changes nothing. |
| SearchEngine.NameIsAlphaWords | backend/app/services/search_engine.py:127-129 | A line's name is one to three of its own alphabetic words. |
| SearchEngine.NamesOf | backend/app/services/search_engine.py:125-129 | There is at most one name per candidate line. |
| SearchEngine.NamesAreShortAlphaNames | backend/app/services/search_engine.py:125-131 | Every name is one to three alphabetic words. There are no names iff no line has an alphabetic token. |
| SearchEngine.ManufacturerNames | backend/app/services/search_engine.py:125-129 | The names loop computes exactly `NamesOf`. |
| SearchEngine.GuessFromNames | backend/app/services/search_engine.py:130-152 | There is no guess iff there are no names. A truthy hint with a `WRatio` match gives that name, the hint as alias, and the score / 100. Otherwise a `partial_ratio` match on the part number gives that name with no alias and the score / 100. Otherwise the first name is given at 0.3 as the fallback selection. |
| SearchEngine.GuessManufacturerFromText | backend/app/services/search_engine.py:118-152 | `_guess_manufacturer_from_text` returns the guess from the names of the candidate lines. There is none iff there are no names, and only the hint can be the alias. |
| SearchEngine.ContentItems | backend/app/services/search_engine.py:101-103 | Each item is a given URL with its non-empty extracted text. |
| SearchEngine.ContentItemsAreTheMap | backend/app/services/search_engine.py:101-103 | The items are exactly the entries of the `extract_from_urls` map. |
| SearchEngine.CandidatesOf | backend/app/services/search_engine.py:103-115 | There is at most one candidate per item. |
| SearchEngine.CandidateSources | backend/app/services/search_engine.py:103-115 | Every candidate's source is the URL of the item it was guessed from. |
| SearchEngine.CandidatesFromFirstSixUrls | backend/app/services/search_engine.py:97-116 | There are at most six candidates, each from one of the first six aggregated URLs. |
| SearchEngine.GuessAll | backend/app/services/search_engine.py:103-115 | The candidates loop computes exactly `CandidatesOf`. |
| SearchEngine.ExtractCandidates | backend/app/services/search_engine.py:97-116 | `_extract_candidates` computes `CandidatesFor`: at most six candidates, each from one of the first six aggregated URLs. |
| SearchEngine.BestIndex | backend/app/services/search_engine.py:165 | The best candidate has maximal confidence and is the first among ties. |
| SearchEngine.LowerNames | backend/app/services/search_engine.py:49 | The set is exactly the lower-cased existing alias names. |
| SearchEngine.NewAliases | backend/app/services/search_engine.py:50-52 | The new aliases are exactly those whose lower-cased form is not among the existing ones. |
| SearchEngine.CaseVariantNotAdded | backend/app/services/search_engine.py:49-52 | An alias that differs from an existing one only in case is never added. |
| SearchEngine.AliasKnownAfterSync | backend/app/services/search_engine.py:48-53 | After a sync, the alias is known ignoring case. |
| SearchEngine.ManufacturerTable.Resolve | backend/app/services/search_engine.py:36-46 | The result is the first row with the name ignoring case, and the rows are unchanged. Without such a row, a new row with that name and no aliases is appended, and its position is the result. |
| SearchEngine.ManufacturerTable.SyncAliases | backend/app/services/search_engine.py:48-53 | The new aliases are appended in order. Existing aliases and other rows are unchanged. |
| SearchEngine.PartStore.Add | backend/app/services/search_engine.py:179 | Adding appends the part. |
| SearchEngine.NewPartRow | backend/app/services/search_engine.py:170-178 | The new row carries the part number, the resolved manufacturer, and the best candidate's alias, confidence and source. |
| SearchEngine.StoreBest | backend/app/services/search_engine.py:156-188 | No candidates gives `No sources found` and changes neither table. Otherwise the best candidate's manufacturer resolves to the first row equal to it ignoring case, or to a new row appended with that name. The candidate's alias is synced into that row and is then known ignoring case, and no other row changes. One new part row is linked to that row. It carries the resolved name and the best candidate's alias, confidence, URL and debug text, exactly as the result does. |
| SearchEngine.SearchPart | backend/app/services/search_engine.py:154-188 | The candidates are `CandidatesFor`, and the result, the manufacturer table and the store are exactly as `StoreBest` states for them (`StoredBest`). |
| SearchEngine.SearchOne | backend/app/services/search_engine.py:154-193 | One item does everything `SearchPart` states for it (`StoredBest` of its candidates). |
| SearchEngine.SearchMany | backend/app/services/search_engine.py:190-194 | There is one result per item, in item order. |
| SearchProviders.ProviderName | backend/app/services/search_providers.py:72 | The name is `openai` exactly for the OpenAI provider. |
| SearchProviders.DefaultProviders | backend/app/services/search_providers.py:290-294 | The web provider always comes first. SerpAPI is second exactly when a key is configured. Custom Search and OpenAI are never included. |
| SearchProviders.GetWithRetry | backend/app/services/search_providers.py:172-196 | There are one to three attempts, and every attempt but the last failed retryably. Stopping early means a non-retryable outcome. The reply is the last response or nothing. Waits are 1.5·(k+1) s before retry k. |
| SearchProviders.CseResults | backend/app/services/search_providers.py:199-210 | Only items with a link are kept, in order and shaped. When all items have links, every item is kept. |
| SearchProviders.CseResultsAppend | backend/app/services/search_providers.py:201-210 | Shaping keeps item order. |
| SearchProviders.CseResultFromLinkedItem | backend/app/services/search_providers.py:201-210 | Every result is the shaping of an item that has a link. |
| SearchProviders.ShapeCse | backend/app/services/search_providers.py:199-211 | The loop plus `[:max_results]` gives exactly the shaped results cut to the limit. |
| SearchProviders.CustomSearch | backend/app/services/search_providers.py:165-211 | Missing credentials give no request and no results. Otherwise there are one to three requests, and the shaped items of the last response or nothing. |
| SearchProviders.PlusToSpace | backend/app/services/search_providers.py:282 | Decoding `+` keeps the length and leaves `+`-free text unchanged. |
| SearchProviders.FirstQueryValue | backend/app/services/search_providers.py:282-283 | A query value is never empty. |
| SearchProviders.CleanLink | backend/app/services/search_providers.py:277-287 | A missing or empty link, or an image link, gives nothing. Any other link that is not a redirect is kept as it is. A value is never empty. |
| SearchProviders.UnwrapRedirect | backend/app/services/search_providers.py:280-284 | A Google redirect `/url?q=target&...` cleans to its target. |
| SearchProviders.BlockResult | backend/app/services/search_providers.py:263-272 | A block yields a result only with an anchor, a title and a link that survives cleaning. |
| SearchProviders.WebResults | backend/app/services/search_providers.py:262-272 | There is at most one result per block, and every result has a link. |
| SearchProviders.WebResultsAppend | backend/app/services/search_providers.py:262-272 | Results keep page order. |
| SearchProviders.ScrapeResults | backend/app/services/search_providers.py:260-275 | The block loop returns the first `max(max_results, 1)` results. |
| SearchProviders.WebSearch | backend/app/services/search_providers.py:227-275 | There are one to three requests. The result is the scraped results of the last response, or nothing, and every result has a link. |
| SearchProviders.SerpResults | backend/app/services/search_providers.py:37-67 | A request is made iff a key is configured. The organic results take precedence over the news results, and either is cut to the limit. Otherwise there is nothing. |
| SearchProviders.AnswerResults | backend/app/services/search_providers.py:119-123 | A non-list answer gives nothing, and every result has a link. |
| SearchProviders.ItemResults | backend/app/services/search_providers.py:120-123 | There is at most one result per item, each with a link. |
| SearchProviders.UrlPreferredOverLink | backend/app/services/search_providers.py:121-123 | `url` wins over `link`. The title defaults to that URL and the snippet comes from `summary`. An item with neither is dropped. |
| SearchProviders.OpenAIProvider.constructor | backend/app/services/search_providers.py:71-80 | A new provider has not checked its balance. |
| SearchProviders.OpenAIProvider.MaybeWarnLowBalance | backend/app/services/search_providers.py:126-149 | There is at most one balance request per instance, because the flag is set first. It warns iff that request reports a balance at or below the threshold. |
| SearchProviders.OpenAIProvider.Search | backend/app/services/search_providers.py:82-124 | There is no request without a client. Empty or undecodable content gives nothing. Otherwise the shaped items are cut to the limit, after the balance check. |
| SearchProviders.BalanceCheckedOnce | backend/app/services/search_providers.py:127-131 | Two searches make at most one balance request, and exactly one when a key and a threshold are set. |
| Throttle.InWindow | backend/app/services/throttle.py:56-59 | The kept timestamps are at or after the cutoff. |
| Throttle.InWindowCount | backend/app/services/throttle.py:99 | The timestamps kept by the window are exactly as many as the timestamps at or after the cutoff. |
| Throttle.StaleCount | backend/app/services/throttle.py:58-59 | The pruning loop pops at most the whole deque. |
| Throttle.PruneSortedIsWindow | backend/app/services/throttle.py:56-59 | On a sorted deque, popping stale heads leaves exactly the in-window timestamps, in order. |
| Throttle.IntervalWait | backend/app/services/throttle.py:61-71 | There is no wait before the first request. Otherwise the wait is positive iff less than `min_interval` has elapsed, and then it is exactly the missing time. |
| Throttle.WindowWait | backend/app/services/throttle.py:73-84 | A wait needs a full window, and lasts until the oldest entry leaves it. A full window whose oldest entry is still inside always waits. |
| Throttle.RateLimiter.constructor | backend/app/services/throttle.py:39-43 | A new limiter has an empty deque and no last request. |
| Throttle.RateLimiter.PruneBefore | backend/app/services/throttle.py:56-59 | Pruning keeps exactly the in-window timestamps and keeps the deque sorted. |
| Throttle.RateLimiter.Acquire | backend/app/services/throttle.py:45-93 | The waits follow the interval rule and then the window rule, with a second prune after a window wait. Exactly one timestamp, the return time, is appended, and it becomes the last request time. The deque stays sorted. |
| Throttle.RateLimiter.Record | backend/app/services/throttle.py:91-93 | The return time is appended, becomes the last request time, and keeps the deque sorted. |
| Throttle.RateLimiter.GetStats | backend/app/services/throttle.py:95-108 | `active` is the number of recorded timestamps at or after `now - time_window`. `available = max(0, max - active)`, so it is never negative. `last_request_ago` is absent before the first request. |
| Throttle.InsertByKey | backend/app/services/throttle.py:139 | Insertion keeps the entries and adds the new one. |
| Throttle.SortByKey | backend/app/services/throttle.py:139 | Sorting gives a permutation of the keyword arguments, in ascending key order. |
| Throttle.AscendingUnique | backend/app/services/throttle.py:139 | Two key-sorted lists with the same entries are equal. |
| Throttle.KeyIgnoresArgumentOrder | backend/app/services/throttle.py:129-140 | The cache key does not depend on the order of the keyword arguments. |
| Throttle.SearchCache.constructor | backend/app/services/throttle.py:118-127 | A new cache is empty, with zero hits and misses. |
| Throttle.SearchCache.Get | backend/app/services/throttle.py:144-175 | Exactly one of hits and misses grows, and a hit returns the stored value. |
| Throttle.SearchCache.Set | backend/app/services/throttle.py:177-193 | The value is stored under the key, and the counters do not change. |
| Throttle.SearchCache.Clear | backend/app/services/throttle.py:195-201 | The cache is empty and both counters are zero. |
| Throttle.SearchCache.HitRate | backend/app/services/throttle.py:203-207 | The rate lies in [0, 1]. It is 0 with no lookups, else hits/(hits+misses). |
| TelegramNotifier.BotApi.Send | backend/app/services/telegram_notifier.py:61-62 | A post is recorded. |
| TelegramNotifier.ForceBypassesOnlyTheSwitch | backend/app/services/telegram_notifier.py:41-47 | `force` bypasses only the enabled switch. Token and chat id are still required. |
| TelegramNotifier.SendMessage | backend/app/services/telegram_notifier.py:24-78 | No post is made without settings, while disabled and not forced, or without token and chat id. Otherwise exactly one post is made, and the result is true iff the reply's `ok` is truthy. |
| TelegramNotifier.ErrorMessage | backend/app/services/telegram_notifier.py:86-88 | The message starts with the header and the error. The details section is appended iff the details are non-empty. |
| TelegramNotifier.NotifyError | backend/app/services/telegram_notifier.py:80-90 | Nothing is sent while error notifications are off. Otherwise the composed message is sent. |
| TelegramNotifier.RecordAlert | backend/app/services/telegram_notifier.py:110-120 | An alert is suppressed iff the stored value for OpenAI or Google is truthy and at most the balance. Otherwise the balance becomes that service's stored value. Other services change nothing. |
| TelegramNotifier.RecordedAlertSuppressesRepeats | backend/app/services/telegram_notifier.py:110-120 | After a non-zero alert, no alert follows for a balance that has not dropped. |
| TelegramNotifier.ZeroBalanceAlertsRepeat | backend/app/services/telegram_notifier.py:112 | A stored zero is falsy, so zero-balance alerts repeat. |
| TelegramNotifier.NotifyLowBalance | backend/app/services/telegram_notifier.py:92-131 | Nothing happens while low-balance notifications are off or the alert is suppressed. Otherwise the stored values are updated as `RecordAlert` says and the message is sent, and no other setting changes. |
| TelegramNotifier.TestConnection | backend/app/services/telegram_notifier.py:133-152 | Without token and chat id it returns false and sends nothing. Otherwise it sends one forced test message and reports its outcome. |

## Left out

- Network I/O, HTML and PDF parsing, JSON decoding, `urlparse`/`parse_qs`, and fuzzy scoring are inputs. Their replies are parameters, not computed.
- The AI prompt's wording and the request options (`temperature`, `max_tokens`, JSON mode) are not modelled. Only the text passed in and the reply are.
- `normalize_manufacturer_name`, `KNOWN_MANUFACTURERS`, `DOMAIN_MANUFACTURER_HINTS` and `ManufacturerInfoExtractor` are defined outside the shown files. The first three are parameters. The extractor's enrichment fields (`what_produces`, `website`, `manufacturer_aliases`, `country`) are not part of this model.
- `OptimizedPartSearchEngine.search_many` runs its items concurrently (`asyncio.gather` under a semaphore of 3), so store writes interleave. It is not part of this model. The legacy `search_many`, which is sequential, is modelled.
- `extract_from_urls` runs its fetches concurrently. It is modelled as a map from the URLs.
- The `asyncio.Lock`s of `throttle.py` are not modelled, and neither are the session's flush, commit and rollback.
- The log recorder and all logging are not modelled, including the `search_logs` rows written for OpenAI document requests.
- Floating point is not modelled: confidences, balances and times are exact reals. `float(x)` on the AI confidence is modelled as a number or a failure.
- `Text.Lower` folds only `A`-`Z`. Python's `str.lower` also folds non-ASCII capitals, so alias, manufacturer and hint comparisons differ from the source for names such as `ÜBER` or Cyrillic names.
- `Text.IsAlpha` knows only the ASCII letters, unlike Python's `str.isalpha`. So `SearchEngine.NameOf` and `SearchEngine.AlphaTokens` (search_engine.py:127) do not accept non-ASCII words such as `Würth` or Cyrillic names as manufacturer names.
- `Text.IsSpace` is the set of characters Python's `str.split()`, `str.strip()` and `str.isspace()` treat as whitespace. So `Config.SplitOrigins` and `DocumentParser.ExtractTextFromHtml` strip the same characters the source strips.
- `Text.SplitLines` splits on `\n` only. Python's `str.splitlines` also splits on `\r`, `\r\n`, `\v`, `\f`, `\x1c`-`\x1e`, `\x85`, `\u2028` and `\u2029`.
- The `message` texts of `StageStatus` entries are not modelled. A stage entry holds its name and its status only.
- `DocumentParser.ExtractText`: only `PdfReadError`, `PdfStreamError` and `ValueError` from the PDF reader fall back to HTML (document_parser.py:96). The reader's `None` stands for those. Other exceptions propagate out of `extract_text`, and they are not modelled.
- `SearchEngine.ManufacturerTable.Resolve`: `Manufacturer.name.ilike(name)` is modelled as case-insensitive equality, ignoring `%` and `_` wildcards. When several rows match, `scalar_one_or_none()` raises `MultipleResultsFound`. The model instead returns the first matching row, so this error is not modelled.
- `OptimizedSearchEngine.SaveFound`: `normalize_manufacturer_name` is a parameter. When it gives no value, the save step is modelled as raising before anything is written.
- `SearchEngine.SearchMany`: states only that there is one result per item, answering that item's part number. The store after the whole loop is not stated.
- `Importer.MissingColumns`: for two missing columns, the order in the error text follows Python set iteration order. The model fixes it as `part_number, manufacturer_hint`.
- `Importer.SearchRow`: a search that raises is modelled as raising before anything is stored.
- `Importer.ImportRows`: the duplicate-row error of `scalar_one_or_none` aborts the import with its message. Other database errors are not modelled.
- `Exporter.RenderPdf`: fonts, cell widths and heights, page breaks and the written file are not modelled. The confidence text is a parameter `render`.
- `TelegramNotifier.NotifyLowBalance`: the `:.2f` amount formatting is a parameter `money`.
- `TelegramNotifier.SendMessage`: `get_settings` reads the first settings row. The model receives that row, or `null`, as an argument.
- `SearchProviders.ItemResults`: the `Answer` type holds only JSON objects. An element of the OpenAI JSON array that is not an object makes `item.get` raise `AttributeError` (search_providers.py:121). That exception is caught by the caller and gives no results, which is not modelled.
- `Throttle.RateLimiter.constructor`: requires a positive `max_requests`, as every limiter the backend builds has one. With `max_requests <= 0`, `acquire` would read `self.requests[0]` from an empty deque and raise `IndexError` (throttle.py:74-75). That error is not modelled.
- `SearchProviders.FirstQueryValue`: percent-escapes in the redirect query are not decoded.
- `Throttle.SearchCache.Get`: `cachetools.TTLCache` time-to-live and size eviction, the MD5 digest of the key, and `SearchCache.get_stats` are not modelled. A hit is a key in the map, since stored values are lists and never `None`.
- The global limiter and cache instances (`throttle.py` lines 221-264) are constants with no behaviour of their own, and are not part of this model.
- `Throttle.RateLimiter.Acquire`: the clock is a parameter. `asyncio.sleep` is modelled as the requested wait plus a non-negative lateness.
- `get_google_provider` and `get_fallback_provider` only construct providers. They are represented by `SearchEngine.Source` and `SearchProviders.Provider`.
- `fetch_bytes` builds clients and closes the ones it owns. Only its retry policy (`_attempt_fetch`) is modelled.
- `DocumentParser.AttemptFetch`: the outcome of `getter(False)` is a free input. In `fetch_bytes`, `client` is never `None` when `_get` runs (document_parser.py:22), so `inner_client` is always the shared verifying client and `verify_override` is ignored (document_parser.py:28). The certificate retry therefore repeats a verified request. The model allows any outcome for that call, which covers this, but does not state that it is verified.
- `OptimizedSearchEngine.TempDir.Write`: the temporary file is named by `hash(url)`. The model keys files by URL, so two URLs with colliding hashes are not modelled.
- `OptimizedSearchEngine.TempDir.Remove`: a failing `unlink` is not modelled. Removal always succeeds.
- The browser-side progress display and table filtering are not part of this model.
- `core/security.py`, the FastAPI wiring and the declarative schemas are not part of this model.
