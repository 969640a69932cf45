# Stock watchlist dashboard — a Dafny model of its core

The dashboard shows a trader's watchlist groups (Indonesian stock symbols, "emiten"), a per-symbol
history of broker-summary analyses, and AI "story" analyses produced by a background function that
asks a generative model (with web search grounding) about recent news and stores the structured
result. This project models the core of that system:

- **StoryWorker** (`story_worker.dfy`, `story_worker_proofs.dfy`): the background handler that turns an
  `emiten`/`id` request into an analysis row. The handler is a pure function `Run` over a world of
  external calls (job-log writes, row updates, the model call), and the class `StoryJob` mirrors the
  handler step by step. Every external call may fail; a failure is given as a map from the call's
  ordinal to its error text. The row's status lifecycle is checked by a small automaton (`Monitor`).
- **Watchlist** (`watchlist.dfy`): the sidebar's group selection, search/sector/status filters, sector
  list and flag updates, with `SidebarState` holding the component's state.
- **Utils** (`utils.dfy`): the default trading date (the weekend rolls back to Friday) and
  `renderWithLinks`, which splits text on URL runs and renders the odd pieces as links.
- **StoryCard** (`story_card.dfy`): which story version is displayed, which sections appear, and the
  card's view for each analysis status.
- **HistoryCard** (`history_card.dfy`): the row-count preference, the history request and its reversal
  to oldest-first, the price-tier colouring and gain badges of a history row.
- **PdfExport** (`pdf_export.dfy`): the filter line and table rows of the exported PDF.
- Shared pieces: `Text` (whitespace, ASCII upper-casing, `includes`, string order, `parseInt`, decimal
  rendering), `Format` (number/date placeholders, gain text), `Json` (values and truthiness), `Wrappers`
  (`Option`).

Where the design documentation and the code differ, the model follows the code:
- The row records "GEMINI_API_KEY not configured", while the reply says "API key not configured"
  (`StoryWorker.NoKeyRecordMessage`, `StoryWorker.Body`).
- The story `id` is only checked to be non-empty, not rejected when it is not a positive integer. It is
  read with `parseInt`. An id without a decimal digit gives `NaN` (`Text.ParseInt` gives `None`), and an
  update filtered on a `NaN` id selects no row. The handler still runs and can reply 200, but no row
  changes (`StoryWorkerProofs.NaNIdLeavesRow`).
- The prompt template asks the model for `swat_analysis`, while the handler stores `swot_analysis`.
  A model that follows the template therefore has its SWOT analysis replaced by `{}`
  (`StoryWorker.TemplateSwotKeyIsDropped`).
- Job-log failures are isolated only while the log is being created. A job-log write that fails after
  the row was stored as completed sends the handler into its catch branch. That branch overwrites the
  row with `error` and the failure's message, while the stored analysis stays
  (`StoryWorkerProofs.LogFailureAfterCompletion`).
- The JSON extraction takes the text from the first `{` to the last `}` (`StoryWorker.ExtractSpanBounds`).
  It recovers the model's object when no `{` precedes the object and no `}` follows it
  (`StoryWorker.ExtractRecoversWrappedObject`). A `{` before the object or a `}` after it widens the span.

## Model

| member | source | states |
|---|---|---|
| StoryWorker.StoryJob.Handle | netlify/functions/analyze-story-background.ts:29-290 | the imperative handler produces exactly the calls, outcome and row changes of the functional model `Run`; the row afterwards is the old row with the recorded updates applied |
| StoryWorker.StoryJob.constructor | netlify/functions/analyze-story-background.ts:29-31 | a job starts with no external calls made and the row as given |
| StoryWorker.StoryJob.Call | netlify/functions/analyze-story-background.ts:44-290 | one external call either fails with its scheduled error and leaves no trace, or is recorded and applied to the row |
| StoryWorker.StoryJob.OpenJobLog | netlify/functions/analyze-story-background.ts:44-64 | creating the job log and its first entry never aborts the handler; a failed creation leaves no log id |
| StoryWorker.StoryJob.FailWithoutKey | netlify/functions/analyze-story-background.ts:66-81 | without an API key, the row is marked error with "GEMINI_API_KEY not configured", the job log, when one exists, is closed as failed (no entry is appended), and the handler replies 500 "API key not configured" |
| StoryWorker.StoryJob.Generate | netlify/functions/analyze-story-background.ts:84-171 | the row is marked processing, the log notes the analysis, and the model is called |
| StoryWorker.StoryJob.Conclude | netlify/functions/analyze-story-background.ts:174-263 | the model's text is extracted and parsed; a parse failure marks the row error; otherwise the defaulted analysis is stored, the log is completed, and the reply is 200 |
| StoryWorker.StoryJob.Recover | netlify/functions/analyze-story-background.ts:265-288 | the catch branch logs the failure, marks the row error with `String(error)`, and replies 500; when its own writes fail the handler escapes |
| StoryWorkerProofs.MissingParamsIff | netlify/functions/analyze-story-background.ts:33-41 | the reply is 400 exactly when `emiten` or `id` is missing or empty, and then no external call is made |
| StoryWorkerProofs.SymbolPresent | netlify/functions/analyze-story-background.ts:33 | upper-casing keeps an emiten present exactly when it was present |
| StoryWorkerProofs.ReplyAgreesWithRow | netlify/functions/analyze-story-background.ts:66-288 | the calls come in lifecycle order: `processing` before the model call, and `completed` only after it. An `error` update may come at any point, even after `completed` (see LogFailureAfterCompletion), and the no-key path can write `error` twice. Every non-400 reply is sent once the lifecycle has concluded. When `parseInt(id)` is a number, an error reply leaves the row `error` with the same message, and a 200 reply leaves it `completed` with the stored analysis |
| StoryWorkerProofs.TryAnalyzeFacts | netlify/functions/analyze-story-background.ts:66-288 | the same agreement between reply and row for the main `try` with its catch branch, from an untouched row, for a numeric target |
| StoryWorkerProofs.AnalyzeStepFacts | netlify/functions/analyze-story-background.ts:66-263 | a body of the main `try` that returns ends in one of the no-key, parse-failure or success replies, with the row settled accordingly (untouched for a `NaN` target) |
| StoryWorkerProofs.RecoverSettles | netlify/functions/analyze-story-background.ts:265-288 | when the catch branch replies, it replies with the caught message, and a row with a numeric id ends `error` with that message |
| StoryWorkerProofs.NoKeyStepFacts | netlify/functions/analyze-story-background.ts:66-81 | the no-key branch, when it returns, replies "API key not configured" and records the error "GEMINI_API_KEY not configured" on the row its target selects |
| StoryWorkerProofs.MarkStepFacts | netlify/functions/analyze-story-background.ts:84 | marking moves the targeted row to `processing` and the lifecycle to Marked |
| StoryWorkerProofs.CallModelStepFacts | netlify/functions/analyze-story-background.ts:86-171 | the log entry and the model call leave the row unchanged, and a successful call moves the lifecycle to Called |
| StoryWorkerProofs.GenerateStepFacts | netlify/functions/analyze-story-background.ts:84-171 | marking and calling, when both succeed, leave the targeted row `processing` and the lifecycle Called |
| StoryWorkerProofs.ConcludeStepFacts | netlify/functions/analyze-story-background.ts:174-263 | after the model call, a returned reply is the parse failure exactly when the extracted text does not parse, and the row is settled to match |
| StoryWorkerProofs.ParseFailureStepFacts | netlify/functions/analyze-story-background.ts:209-231 | the parse-failure branch replies "Parse error" and records "Failed to parse AI response" on the targeted row |
| StoryWorkerProofs.StoreStepFacts | netlify/functions/analyze-story-background.ts:235-263 | the store branch marks the targeted row `completed` with the analysis and replies 200 with the emiten |
| StoryWorkerProofs.OpenLogStepFacts | netlify/functions/analyze-story-background.ts:44-64 | opening the job log changes neither the row nor the lifecycle |
| StoryWorkerProofs.NoModelCallWithoutKey | netlify/functions/analyze-story-background.ts:66-81 | without an API key the model is never called |
| StoryWorkerProofs.FaultFreeReply | netlify/functions/analyze-story-background.ts:29-290 | when no call fails, the reply is the no-key reply or follows whether the model's text parses, and the model is called exactly when a key is configured |
| StoryWorkerProofs.LogFailureAfterCompletion | netlify/functions/analyze-story-background.ts:235-288 | if the log entry after the completed update fails, the reply is a 500 with that error; a row with a numeric id is overwritten to `error` while keeping the stored analysis |
| StoryWorkerProofs.SettledFields | netlify/functions/analyze-story-background.ts:235-244 | a settled row with a numeric target carries the recorded message on error and the stored analysis on success |
| StoryWorker.Run | netlify/functions/analyze-story-background.ts:29-290 | the whole invocation as a function of the request and the services; it has no contract of its own, and MissingParamsIff, ReplyAgreesWithRow, FaultFreeReply, NaNIdLeavesRow and StoryJob.Handle state what it does |
| StoryWorkerProofs.UpdatesSelectStoryTarget | netlify/functions/analyze-story-background.ts:68-285 | every row update of an invocation selects the row `parseInt(id)` |
| StoryWorkerProofs.NaNIdLeavesRow | netlify/functions/analyze-story-background.ts:68-285 | an id that `parseInt` reads as `NaN` leaves the row exactly as it was, whatever the handler replies |
| StoryWorkerProofs.NonNumericIdExample | netlify/functions/analyze-story-background.ts:84 | the id "abc" parses to `NaN` and changes no row |
| StoryWorker.BuildSources | netlify/functions/analyze-story-background.ts:178-188 | there is at most one source per grounding chunk, and every source has a non-empty uri |
| StoryWorker.SourcesAreCitedChunks | netlify/functions/analyze-story-background.ts:178-188 | the filter-map-filter pipeline equals one pass keeping chunks with a non-empty uri, titled "Sumber Berita" when untitled |
| StoryWorker.CitedUrisNonEmpty | netlify/functions/analyze-story-background.ts:182-188 | every cited source has a non-empty uri, and there are no more sources than chunks |
| StoryWorker.SourcesExample | netlify/functions/analyze-story-background.ts:182-188 | a chunk with an empty uri is dropped and the other becomes a citation |
| StoryWorker.KeepNonEmptyUriOfAllNonEmpty | netlify/functions/analyze-story-background.ts:188 | the final filter keeps a list whose uris are all non-empty as it is |
| StoryWorker.MapOfKept | netlify/functions/analyze-story-background.ts:182-187 | mapping the chunks kept by the first filter gives the one-pass citation list |
| StoryWorker.IndexOf | netlify/functions/analyze-story-background.ts:203 | finds the first occurrence of a character, or reports that there is none |
| StoryWorker.LastIndexOf | netlify/functions/analyze-story-background.ts:203 | finds the last occurrence of a character, or reports that there is none |
| StoryWorker.IndexOfIsFirst | netlify/functions/analyze-story-background.ts:203 | a position holding the character with none before it is what `IndexOf` returns |
| StoryWorker.LastIndexOfIsLast | netlify/functions/analyze-story-background.ts:203 | a position holding the character with none after it is what `LastIndexOf` returns |
| StoryWorker.ExtractFindsSpanIff | netlify/functions/analyze-story-background.ts:203-204 | the greedy brace match succeeds exactly when some `{` precedes some `}` |
| StoryWorker.ExtractSpanBounds | netlify/functions/analyze-story-background.ts:203-205 | the matched span runs from the first `{` to the last `}` of the text |
| StoryWorker.ExtractJsonSpan | netlify/functions/analyze-story-background.ts:203-205 | a found span lies within the text, starts with `{`, ends with `}` and is at least two characters long |
| StoryWorker.ExtractRecoversWrappedObject | netlify/functions/analyze-story-background.ts:203-205 | an object is extracted exactly when no `{` comes before it and no `}` after it |
| StoryWorker.RawPrefix | netlify/functions/analyze-story-background.ts:223 | the raw text logged on a parse failure is a prefix of at most 500 characters, the whole text when it is shorter |
| StoryWorker.Defaulted | netlify/functions/analyze-story-background.ts:235-244 | the stored sources are the cited ones; the story matrix, SWOT, checklist and strategy fields are never falsy, because their defaults are `[]` or `{}` |
| StoryWorker.DefaultedFields | netlify/functions/analyze-story-background.ts:235-244 | each stored field keeps the model's value when truthy, else takes its default (`[]`, `{}` or `""`), and the sources are the cited chunks |
| StoryWorker.TemplateSwotKeyIsDropped | netlify/functions/analyze-story-background.ts:142 | an answer that follows the template's `swat_analysis` key stores an empty SWOT analysis |
| Watchlist.SidebarState.constructor | app/components/WatchlistSidebar.tsx:12-23 | the sidebar starts loading, with no groups, no selection and no filter |
| Watchlist.SidebarState.FetchGroups | app/components/WatchlistSidebar.tsx:26-59 | a non-empty group list replaces the groups and keeps a listed selection or picks the default group; an auth error is kept, another failure is dropped, and an unreachable server or an empty list sets its own message; loading ends when nothing was selected |
| Watchlist.SidebarState.OnFlagged | app/components/WatchlistSidebar.tsx:106-113 | the flag event updates the watchlist through `FlagUpdate` and changes nothing else |
| Watchlist.SidebarState.SelectGroup | app/components/WatchlistSidebar.tsx:239 | choosing a group selects it and changes nothing else |
| Watchlist.SidebarState.SetFilter | app/components/WatchlistSidebar.tsx:280-319 | a filter input takes effect at once on the list shown |
| Watchlist.SidebarState.ResetFilters | app/components/WatchlistSidebar.tsx:338-344 | after a reset no filter is active and the whole watchlist is shown |
| Watchlist.FilteredWatchlist | app/components/WatchlistSidebar.tsx:130-146 | the list shown is never longer than the watchlist, and every item in it passes the filters |
| Watchlist.FilteredIsSubsequence | app/components/WatchlistSidebar.tsx:130-146 | filtering keeps items in their order and invents none |
| Watchlist.FilteredMembership | app/components/WatchlistSidebar.tsx:130-146 | an item is shown exactly when it is in the watchlist and passes all three filters |
| Watchlist.SearchIsSubstring | app/components/WatchlistSidebar.tsx:133-136 | the search passes exactly when it is empty or, ignoring case, occurs in the symbol or the company name |
| Watchlist.SectorAndStatusExclude | app/components/WatchlistSidebar.tsx:139-142 | with one dropdown set, an item is shown exactly when its sector, or its flag, equals the choice |
| Watchlist.InactiveFilterShowsAll | app/components/WatchlistSidebar.tsx:20-22 | with no filter active the whole watchlist is shown |
| Watchlist.AvailableSectors | app/components/WatchlistSidebar.tsx:121-127 | the sector list is sorted, has no duplicates, leaves out empty sectors and holds exactly the watchlist's sectors |
| Watchlist.Least | app/components/WatchlistSidebar.tsx:126 | the chosen sector is in the set and below every other one |
| Watchlist.SortedDistinct | app/components/WatchlistSidebar.tsx:126 | a strictly sorted list has no duplicates |
| Watchlist.FlagUpdate | app/components/WatchlistSidebar.tsx:106-113 | the flag update keeps the watchlist's length |
| Watchlist.FlagUpdateLastWins | app/components/WatchlistSidebar.tsx:106-113 | of two flag updates for one symbol the later one wins |
| Watchlist.FlagUpdateAndStatusFilter | app/components/WatchlistSidebar.tsx:106-142 | only the named symbol's flag changes, ignoring case; it then passes the status filter exactly when the filter is "all" or the new flag |
| Watchlist.FirstDefault | app/components/WatchlistSidebar.tsx:45 | finds the first default group, or reports that there is none |
| Watchlist.DefaultGroupId | app/components/WatchlistSidebar.tsx:47-48 | the default selection, when there is one, is a listed group with a non-zero id |
| Watchlist.Reselect | app/components/WatchlistSidebar.tsx:42-49 | after a group list arrives, the selection is either nothing or a listed group with a non-zero id; it is the current selection or the default one |
| Watchlist.ReselectChoosesListedOrDefault | app/components/WatchlistSidebar.tsx:42-49 | a listed selection is kept; otherwise the first default group (else the first group) is selected, and an id of 0 selects nothing |
| Utils.DefaultDate | lib/utils.tsx:3-16 | Saturday rolls back one day and Sunday two; a weekday stays; the result is the latest weekday not after today |
| Utils.WeekdayOfPrevious | lib/utils.tsx:5-13 | the day before has the previous weekday number, wrapping from Sunday to Saturday |
| Utils.RenderWithLinks | lib/utils.tsx:18-48 | absent or empty text renders as nothing; otherwise there is one part per split piece |
| Utils.RenderAlternates | lib/utils.tsx:22-46 | the parts alternate plain, link, plain…, odd in number; they concatenate back to the text; plain parts hold no URL; links are whole URL matches |
| Utils.LinksAreMaximalRuns | lib/utils.tsx:22-46 | each link starts with http:// or https://, holds no whitespace, and is followed by a plain part that is empty or starts with whitespace |
| Utils.Split | lib/utils.tsx:22-23 | the split gives an odd number of pieces: text, URL, text, and so on, ending with text |
| Utils.SplitRoundTrip | lib/utils.tsx:23 | the split pieces concatenate back to the text |
| Utils.PieceKinds | lib/utils.tsx:23-28 | even pieces contain no URL and odd pieces are whole URLs |
| Utils.TextAfterLink | lib/utils.tsx:22-23 | the piece after a link is empty or starts with whitespace, because URL runs are maximal |
| Utils.RunEndIsMaximal | lib/utils.tsx:22 | a URL run extends over non-space characters up to the next whitespace |
| Utils.SchemeLengthMeans | lib/utils.tsx:22 | the scheme matched is https:// (8), else http:// (7), else none |
| Utils.NextMatchIsFirst | lib/utils.tsx:23 | the split finds the leftmost next URL |
| Utils.MatchedPieceMatches | lib/utils.tsx:25-28 | a URL cut out of the text is itself a URL match from its start to its end |
| Utils.RenderedTextOfPieces | lib/utils.tsx:25-46 | rendering keeps each piece's text |
| StoryCard.StoryCardState.constructor | app/components/AgentStoryCard.tsx:14-15 | the card starts with no selection and remembers the first status |
| StoryCard.StoryCardState.OnRender | app/components/AgentStoryCard.tsx:18-31 | with stories present, a missing selection, or a switch to completed, selects the newest story, which is then displayed; otherwise the selection stays |
| StoryCard.StoryCardState.Choose | app/components/AgentStoryCard.tsx:100-103 | choosing a version selects it |
| StoryCard.Displayed | app/components/AgentStoryCard.tsx:33 | a story is displayed exactly when there are stories, and it is one of them |
| StoryCard.FindById | app/components/AgentStoryCard.tsx:33 | finds the first story with the selected id, or reports that there is none |
| StoryCard.DisplayedIsSelectedOrNewest | app/components/AgentStoryCard.tsx:33 | the displayed story is the first one with the selected id, else the newest |
| StoryCard.NewestSelectionShowsNewest | app/components/AgentStoryCard.tsx:19-28 | selecting the newest story's id displays the newest story |
| StoryCard.SectionsShownIff | app/components/AgentStoryCard.tsx:142-484 | the sections appear in page order. The story matrix, checklist and references each appear exactly when their list is present and non-empty. Key statistics and the conclusion appear exactly when their text is. SWOT and strategy appear exactly when their object is truthy, so an empty `{}` still shows. The references are the sources in order, numbered from 1 |
| StoryCard.ShownMembership | app/components/AgentStoryCard.tsx:142-484 | a section is shown exactly when its slot is filled |
| StoryCard.ShownOrdered | app/components/AgentStoryCard.tsx:142-484 | shown sections keep their slots' order |
| StoryCard.ShownKinds | app/components/AgentStoryCard.tsx:142-484 | of seven ranked slots, each kind appears exactly when its slot is filled |
| StoryCard.CorrectedViewByStatus | app/components/AgentStoryCard.tsx:35-142 | spinner for pending and processing, with their messages; error box for error, with the story's message or the fallback and a retry button only when retry is possible; nothing when there are no stories; otherwise the displayed story's sections, with a version dropdown for more than one story |
| StoryCard.CardView | app/components/AgentStoryCard.tsx:35-142 | the card as written crashes exactly for a completed status with no stories; a card it shows has the sections of one of the stories |
| StoryCard.CorrectedCardView | app/components/AgentStoryCard.tsx:74-142 | the corrected view never crashes |
| StoryCard.CompletedWithoutStoriesCrashes | app/components/AgentStoryCard.tsx:74-142 | the card as written crashes exactly for a completed status with no stories |
| HistoryCard.HistoryCardState.constructor | app/components/EmitenHistoryCard.tsx:36-38 | the card starts loading, with no rows and the default row count |
| HistoryCard.HistoryCardState.LoadProfile | app/components/EmitenHistoryCard.tsx:41-57 | a saved row count is adopted only when it parses to one of the offered counts |
| HistoryCard.HistoryCardState.ChangeRowCount | app/components/EmitenHistoryCard.tsx:90-91 | choosing a row count sets it and leaves the rows alone |
| HistoryCard.HistoryCardState.FetchHistory | app/components/EmitenHistoryCard.tsx:65-88 | the request asks for the upper-cased emiten's latest rows by date, up to the row count; a successful answer is shown oldest first; a failure keeps the old rows; loading ends either way |
| HistoryCard.RequestLimitIsRowCount | app/components/EmitenHistoryCard.tsx:68-73 | the request's limit parses back to the row count |
| HistoryCard.Reverse | app/components/EmitenHistoryCard.tsx:80 | the reversal puts element i at position n-1-i |
| HistoryCard.ReverseReverse | app/components/EmitenHistoryCard.tsx:80 | reversing twice gives the list back |
| HistoryCard.ReverseMultiset | app/components/EmitenHistoryCard.tsx:80 | reversal is a permutation |
| HistoryCard.ReversedIsOldestFirst | app/components/EmitenHistoryCard.tsx:78-81 | rows fetched newest first are shown oldest first, and none is lost |
| HistoryCard.GainBadgeSign | app/components/EmitenHistoryCard.tsx:114-118 | with a positive price and a non-zero target a gain badge is shown, and it starts with "+" exactly when the target is at or above the price |
| HistoryCard.PriceTier | app/components/EmitenHistoryCard.tsx:223-254 | the tier ternary; it has no contract of its own, and PriceTierIff and PriceTierMonotone state it |
| HistoryCard.PriceTierIff | app/components/EmitenHistoryCard.tsx:217-264 | a price is coloured warning once at the max target, success at the realistic target, amber above the buy price, and primary otherwise |
| HistoryCard.PriceTierMonotone | app/components/EmitenHistoryCard.tsx:223-254 | a higher price never gets a lower tier |
| HistoryCard.AvgLineOf | app/components/EmitenHistoryCard.tsx:297-301 | the corrected average line shows a gain exactly when both the average and the price are non-zero, and never a stray 0 |
| HistoryCard.AvgLineAsWritten | app/components/EmitenHistoryCard.tsx:297-301 | as written, a gain line appears exactly when the average and the price are both non-zero, and it then carries a gain; otherwise there is no line or a stray 0 (AvgLineAgrees says which) |
| HistoryCard.ZeroAverageShowsStrayZero | app/components/EmitenHistoryCard.tsx:297 | as written, an average of 0 renders a bare "0"; corrected, nothing renders |
| HistoryCard.AvgLineAgrees | app/components/EmitenHistoryCard.tsx:297-301 | the line as written differs from the corrected one exactly when the average is 0, or the average is set and the price is 0 |
| HistoryCard.RowOf | app/components/EmitenHistoryCard.tsx:188-302 | the row shows the record's emiten. Under the average it renders the corrected `AvgLineOf`, not line 297 as written, so there is never a stray 0 and a gain exactly when the average and the price are both non-zero. The max and close price cells are dashes exactly when their figures are 0 or missing |
| HistoryCard.RowPlaceholders | app/components/EmitenHistoryCard.tsx:188-302 | missing dates, prices, targets and brokers show a dash or nothing, and a gain badge appears exactly when both prices are non-zero |
| PdfExport.BuildFilterText | lib/pdfExport.ts:33-37 | the built filter line is "Filters: ", then the set filters, then the status |
| PdfExport.FilterLine | lib/pdfExport.ts:33-37 | the filter line starts with "Filters: " and ends with "Status: " and the status |
| PdfExport.FilterLineShape | lib/pdfExport.ts:33-37 | the filter line begins with "Filters: " and ends with the status; with no filter set it is just those two |
| PdfExport.SetFiltersOrder | lib/pdfExport.ts:34 | a set emiten is listed first |
| PdfExport.GainOrEmpty | lib/pdfExport.ts:47-51 | the gain text is empty exactly when either price is 0 or missing |
| PdfExport.AvgGain | lib/pdfExport.ts:74-78 | the average-bandar gain is shown exactly when the average and the price are non-zero and the average is below the price |
| PdfExport.AvgGainIsRise | lib/pdfExport.ts:75-78 | a shown average gain is a "+" percentage |
| PdfExport.RowOf | lib/pdfExport.ts:70-90 | a row has one cell per header, with the emiten second, the price third and "-" for a missing broker |
| PdfExport.TableRows | lib/pdfExport.ts:70-90 | there is one row per record, each with the header's width and the record's emiten |
| PdfExport.TableRowsShape | lib/pdfExport.ts:70-90 | one row per record, with the header's width: the formatted `from_date`, the emiten, the formatted price, the two targets, the broker name (or "-" when missing), the formatted `barang_bandar` and the average; each target or average cell is `value + '\n' + gain` exactly when its gain is non-empty, and just the formatted value otherwise |
| PdfExport.WithGainSecondLine | lib/pdfExport.ts:84-88 | a cell is `value + '\n' + gain` exactly when the gain text is non-empty, and the bare value when it is empty |
| Format.DashMeansMissing | lib/pdfExport.ts:40 | given a number renderer that never prints a lone "-", a cell shows "-" exactly when its number is missing |
| Format.DashMeansNoDate | lib/pdfExport.ts:41-45 | given a date renderer that never prints a lone "-", a cell shows "-" exactly when its date is empty |
| Format.GainTextSign | lib/pdfExport.ts:49-50 | `toFixed` writes no leading "+", so the gain text starts with "+" exactly for a non-negative gain, and between the sign and "%" is the fixed-point rendering |
| Format.GainSign | lib/pdfExport.ts:49 | for a positive buy price, the gain is non-negative exactly when the target is at least the price, and zero exactly when they are equal |
| Json.FieldOr | netlify/functions/analyze-story-background.ts:237-242 | a field keeps its value when present and truthy; otherwise it takes the fallback. The result is falsy only when both the field and the fallback are, so a truthy default is never lost |
| Text.ToUpper | app/components/WatchlistSidebar.tsx:133-135 | upper-casing keeps the length and upper-cases each letter |
| Text.ToUpperIdempotent | app/components/WatchlistSidebar.tsx:109 | upper-casing twice is upper-casing once |
| Text.IncludesIffOccurs | app/components/WatchlistSidebar.tsx:134-135 | `includes` holds exactly when the needle occurs at some position |
| Text.IncludesEmpty | app/components/WatchlistSidebar.tsx:133-136 | the empty search is included in every text |
| Text.BelowIrreflexive | app/components/WatchlistSidebar.tsx:126 | no string sorts below itself |
| Text.BelowTransitive | app/components/WatchlistSidebar.tsx:126 | the sort order is transitive |
| Text.BelowTotal | app/components/WatchlistSidebar.tsx:126 | of two different strings, one sorts below the other |
| Text.BelowAsymmetric | app/components/WatchlistSidebar.tsx:126 | two strings never sort below each other |
| Text.TrimStart | netlify/functions/analyze-story-background.ts:68 | `parseInt` skips leading whitespace: the rest of the text, starting with a non-space |
| Text.DigitRun | netlify/functions/analyze-story-background.ts:68 | `parseInt` reads the longest run of digits at the start |
| Text.NatToString | app/components/EmitenHistoryCard.tsx:70 | a count renders as a non-empty string of decimal digits |
| Text.NatToStringRoundTrip | app/components/EmitenHistoryCard.tsx:70 | the rendered digits denote the count |
| Text.ParseIntOfNatToString | app/components/EmitenHistoryCard.tsx:47 | parsing a rendered count gives it back |
| Text.ParseInt | netlify/functions/analyze-story-background.ts:84 | `parseInt` with no radix or radix 10 gives `NaN` unless the text holds a decimal digit |
| Text.ParseIntOfDecimal | netlify/functions/analyze-story-background.ts:68 | a string of decimal digits parses to the number it denotes |

## Left out

- Network, database and model SDK calls are not executed. Their answers are inputs (`Services`, `GroupsResponse`, `HistoryResponse`, `ProfileResponse`), and their failures are a map from call ordinal to error text.
- `JSON.parse` is a function parameter (`Services.parse`), because the model's text format is not specified.
- The prompt text and the key-statistics block (analyze-story-background.ts:58-64, 112-164) are not modelled beyond the `swat_analysis` key. The SWOT sub-fields the card renders are not modelled either (AgentStoryCard.tsx:191-249).
- The job-log entries' wording is reduced to the `Note` kinds. Timestamps, durations and console output are left out.
- Text.ToUpper: upper-cases ASCII letters only, because JavaScript's full Unicode case mapping is not modelled.
- Text.Below: orders by character value, which matches `Array.prototype.sort` on UTF-16 code units only within the Basic Multilingual Plane.
- Format.FormatNumber: locale number rendering is a function parameter, so only the placeholder behaviour is stated. The same holds for dates (`Format.FormatDate`) and for `toFixed(1)` (`Format.GainText`).
- Utils.DefaultDate: days are day numbers counted from 1970-01-01, in a single time zone. The local-time/UTC skew of `toISOString` is not modelled.
- Prices are exact reals. NaN and floating-point rounding are not modelled.
- `fetchWatchlist` (WatchlistSidebar.tsx:65-91) is not modelled, nor is its token-refresh listener (94-102). Both only copy a server answer into state.
- HistoryCard.HistoryCardState.ChangeRowCount: the profile PUT that saves the choice is left out, as it is fire-and-forget.
- The jsPDF drawing, colour hooks and file naming (pdfExport.ts:92-152) are not modelled. Only the filter line and table contents are.
- `getBrokerInfo`, the price chart, the input form, the profile API route, the page and the layout are not part of this model.
- Concurrency, React's batching and `useEffect` scheduling are not modelled. Each handler is one atomic state change.
- A server answer whose `data` is not an array is modelled as absent (`None`).
- Watchlist.SidebarState.SetFilter: the three filter inputs each set one field; the model sets the whole filter at once.

## Findings

| source | as written | input that shows it | evidently intended | confidence | as-written member | corrected member |
|---|---|---|---|---|---|---|
| app/components/EmitenHistoryCard.tsx:297 | `rata_rata_bandar && harga && <div>…</div>` renders the falsy number itself | `rata_rata_bandar = 0` (or a set average with `harga = 0`) renders a stray "0" under the average | render nothing when either value is 0 | not executed | HistoryCard.ZeroAverageShowsStrayZero | HistoryCard.AvgLineOf |
| app/components/AgentStoryCard.tsx:74-142 | the no-data check returns early only for the idle status, then reads fields of the displayed story | status `completed` with `stories = []` dereferences an undefined story | render nothing when there are no stories | not executed | StoryCard.CompletedWithoutStoriesCrashes | StoryCard.CorrectedViewByStatus |
