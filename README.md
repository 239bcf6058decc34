# seq2func in Dafny

seq2func gathers data about ageing-related genes and proteins. Its fetchers
call HGNC, UniProt, InterPro, Ensembl and NCBI. It stores what they return in
PostgreSQL tables (gene_master, protein_master, gene_transcript_protein and the
schema of `utils/database_operations.py`), serves those tables through an API,
and runs a literature search: PubMed search, fetch, LLM screening, ranking and
association extraction. The search runs as a cancellable background task that
reports its progress.

This project models the logic inside that I/O and proves what the code
promises about it. The model covers:

- the task registry: tasks, cancellation tokens, the progress callback and the
  reaper;
- the checkpointed search pipeline and the server glue that records its
  outcome;
- paper screening, the three-tier PSI-MOD lookup, and PubMed query building,
  PMID parsing and batching;
- the extraction logic of the fetchers;
- configuration merging and the row derivations of `insert_gene_data`;
- the API's configuration fallback, domain flattening and longevity fields;
- the record shaping for the three master tables.

Every network reply, database answer, file read, LLM answer, clock reading and
fresh id becomes a parameter. A reply is either the decoded value or the
exception the call raised (a `Result`), so each error path the code takes is
modelled.

The Dafny modules follow the source files:

| module | file |
|---|---|
| `TaskManager` | `src/tasks/task_manager.py` |
| `GeneSearch` | `src/workflows/gene_search.py` |
| `Server` | `server.py` |
| `Screening` | `src/tools/screening.py` |
| `PsiModMapping` | `utils/psi_mod_mapping.py` |
| `PubMed` | `src/tools/pubmed.py` |
| `PubmedFetch` | `src/tools/pubmed_fetch.py` |
| `FetchData` | `utils/fetch_data.py` |
| `DatabaseOperations` | `utils/database_operations.py` |
| `ApiDatabase` | `api/database.py` |
| `ProteinConfig` | `load_proteins_from_config`, which three scripts carry in identical copies |
| `GeneMaster` | `utils/gene_master.py` |
| `ProteinMaster` | `utils/protein_master.py` |
| `GeneTranscriptProtein` | `utils/gene_transcript_protein.py` |

`Wrappers`, `Text` and `PyJson` are shared helpers:

- `Wrappers` holds Option and Result.
- `Text` holds strip, split, join, lower-casing and integer text.
- `PyJson` holds Python dict and list semantics over a JSON value: `.get`,
  `[]`, `in`, iteration, assignment and `json.dumps` of strings.

Facts about the code that the model keeps:

- The code does not keep task status monotone. `update_progress` forces the
  status to "running" even on a finished or cancelled task, and `set_result`
  and `set_error` overwrite "cancelled".
- The docstring at server.py:305 says papers with score ≥ 0.5 are relevant,
  and server.py:60 describes `relevant` as meeting a relevance threshold. No
  code applies that threshold: the screening verdict's `relevant` is used as
  given and defaults to False.
- `run_gene_search_task` calls `search_gene` with a `gene_id` keyword that
  `search_gene` does not accept (see Findings).

## Model

| member | source | states |
|---|---|---|
| TaskManager.NewTask | src/tasks/task_manager.py:129-141 | a created task is pending, with no progress, result or error, and one clock reading gives both its created and updated times |
| TaskManager.CancellationToken.constructor | src/tasks/task_manager.py:67-69 | a new token is not cancelled |
| TaskManager.CancellationToken.Cancel | src/tasks/task_manager.py:71-74 | after `cancel` the token is cancelled, whatever it was before, so a second call changes nothing |
| TaskManager.CancellationToken.IsCancelled | src/tasks/task_manager.py:76-79 | answers the token's flag |
| TaskManager.ProgressCallback.Update | src/tasks/task_manager.py:89-108 | the registry stores a progress record built from the arguments (four steps by default) and marks that task running; tokens and other tasks are untouched |
| TaskManager.WritersEffect | src/tasks/task_manager.py:148-177 | every writer ignores an unknown id; `update_status` sets the status; `update_progress` replaces the progress and forces "running"; `set_result` sets the result and "completed" but keeps the error; `set_error` sets the error and "failed" but keeps the result; each refreshes the timestamp |
| TaskManager.Touch | src/tasks/task_manager.py:148-177 | a write to one id leaves the key set and every other entry unchanged |
| TaskManager.TaskManager.constructor | src/tasks/task_manager.py:113-120 | an empty registry with no tokens |
| TaskManager.TaskManager.CreateTask | src/tasks/task_manager.py:122-141 | a fresh id is added to both maps, as a pending task with a fresh uncancelled token and a callback bound to it; no other entry changes, and both maps keep the same key set |
| TaskManager.TaskManager.GetTask | src/tasks/task_manager.py:143-146 | the stored record for a known id, None for an unknown one |
| TaskManager.TaskManager.UpdateStatus | src/tasks/task_manager.py:148-153 | the new state is the status write applied to that id only |
| TaskManager.TaskManager.UpdateProgress | src/tasks/task_manager.py:155-161 | the new state is the progress write, which forces "running" |
| TaskManager.TaskManager.SetResult | src/tasks/task_manager.py:163-169 | the new state is the result write ("completed") |
| TaskManager.TaskManager.SetError | src/tasks/task_manager.py:171-177 | the new state is the error write ("failed") |
| TaskManager.TaskManager.CancelTask | src/tasks/task_manager.py:179-193 | answers whether a token exists for the id; if so, flips that token and marks the task cancelled; tokens are never reset and no other token changes |
| TaskManager.TaskManager.Reap | src/tasks/task_manager.py:201-215 | one reaper pass leaves exactly the surviving tasks, deletes the same ids from the tokens, and keeps the maps' key sets equal |
| TaskManager.Survivors | src/tasks/task_manager.py:206-215 | a task survives iff it is not finished-and-older-than-an-hour; pending and running tasks always survive; survivors are unchanged |
| TaskManager.SurvivorsIdempotent | src/tasks/task_manager.py:206-215 | a second pass at the same instant removes nothing |
| TaskManager.SurvivorsShrinkOverTime | src/tasks/task_manager.py:206-215 | a later pass removes at least what an earlier one would |
| GeneSearch.Report | src/workflows/gene_search.py:71-88 | every progress report claims four total steps, whatever its step number |
| GeneSearch.ReportsClaimFourSteps | src/workflows/gene_search.py:81-88 | every report of a search has total_steps 4 while its step number lies in 1..7 |
| GeneSearch.OpeningSteps | src/workflows/gene_search.py:96-131 | the query, search, no-papers and fetch reports claim steps 1 to 4 of four |
| GeneSearch.FromQuerySteps | src/workflows/gene_search.py:110-220 | the reports from the search on have steps 1 to 7 of four |
| GeneSearch.FromPmidsSteps | src/workflows/gene_search.py:119-220 | the reports from the fetch on have steps 1 to 7 of four |
| GeneSearch.FromPapersSteps | src/workflows/gene_search.py:134-220 | the reports from screening on have steps 4 to 7 of four |
| GeneSearch.AfterScreeningSteps | src/workflows/gene_search.py:172-220 | the reports from ranking on have steps 5 to 7 of four |
| GeneSearch.FramingSteps | src/workflows/gene_search.py:172-220 | the filter, extraction-start and final reports claim steps 5 to 7 of four |
| GeneSearch.MakeRecord | src/workflows/gene_search.py:155-168 | a screened record carries the paper's PMID, title, abstract and MeSH terms; a missing score becomes 0.0, a missing relevant flag False and missing reasoning "" |
| GeneSearch.Reached | src/workflows/gene_search.py:138-143 | the per-item loop stops exactly before the first item whose checkpoint sees the cancellation |
| GeneSearch.ScreenAll | src/workflows/gene_search.py:138-169 | screening gives at most one record per paper, and one per paper when nothing raises |
| GeneSearch.ScreenedInOrder | src/workflows/gene_search.py:138-169 | record k is built from paper k and its reply; an early stop carries the failing paper's exception |
| GeneSearch.ScreenReports | src/workflows/gene_search.py:144-146 | one progress report per paper attempted, reporting papers_screened = i before paper i |
| GeneSearch.ScreenPapers | src/workflows/gene_search.py:138-169 | the loop screens exactly the papers before the first cancelled checkpoint, reports once per attempt and makes the matching checks |
| GeneSearch.RelevantOnly | src/workflows/gene_search.py:173 | the filtered list holds only relevant records, each drawn from the input |
| GeneSearch.RelevantKept | src/workflows/gene_search.py:173 | no relevant record is dropped |
| GeneSearch.SortSorted | src/workflows/gene_search.py:174 | the sort is non-increasing in score |
| GeneSearch.SortPerm | src/workflows/gene_search.py:174 | the sort is a permutation |
| GeneSearch.SortStable | src/workflows/gene_search.py:174 | among equal scores the sort keeps the input order |
| GeneSearch.SliceStop | src/workflows/gene_search.py:175 | `[:top_n]` ends at top_n, capped by the length; a negative top_n counts from the back |
| GeneSearch.RankAndSelectShape | src/workflows/gene_search.py:173-175 | the selection is a prefix of the sorted relevant records, of length min(top_n, count) when top_n ≥ 0 |
| GeneSearch.RankSelected | src/workflows/gene_search.py:173-175 | the selection is sorted by score and holds only relevant results drawn from the input |
| GeneSearch.TopIsBest | src/workflows/gene_search.py:173-175 | a relevant result scoring strictly higher than a selected one is selected too |
| GeneSearch.RankStable | src/workflows/gene_search.py:173-175 | selected results of equal score keep the screening order |
| GeneSearch.Extracted | src/workflows/gene_search.py:206-212 | an extracted record gains modification effects and longevity association ("Not specified" when missing), loses abstract and MeSH terms, and keeps everything else |
| GeneSearch.ExtractAll | src/workflows/gene_search.py:190-212 | extraction gives at most one result per record, and one per record when nothing raises |
| GeneSearch.ExtractedInOrder | src/workflows/gene_search.py:190-212 | result k is record k updated with its own associations; an early stop carries the failing record's exception |
| GeneSearch.ExtractReports | src/workflows/gene_search.py:195-197 | one progress report per record attempted |
| GeneSearch.ExtractAssociations | src/workflows/gene_search.py:184-212 | only the records before the first cancelled checkpoint are extracted; the rest stay as they were; the list keeps its order and length |
| GeneSearch.ExtractedList | src/workflows/gene_search.py:179-212 | after extraction the first m records are extracted and the rest untouched, and every record keeps its PMID, score and relevance |
| GeneSearch.RankAndExtract | src/workflows/gene_search.py:172-220 | the method's outcome and reports are the specified ranking-and-extraction run |
| GeneSearch.ScreenAndRank | src/workflows/gene_search.py:134-220 | the method's outcome and reports are the specified run from screening on |
| GeneSearch.SearchFromQuery | src/workflows/gene_search.py:110-117 | the method's outcome and reports are the specified run from the search on |
| GeneSearch.FetchAndScreen | src/workflows/gene_search.py:119-131 | the method's outcome and reports are the specified run from the fetch on |
| GeneSearch.SearchGene | src/workflows/gene_search.py:45-234 | the pipeline's outcome and its ordered progress reports equal the checkpointed specification |
| GeneSearch.CancelledAfterQuery | src/workflows/gene_search.py:105-107 | a cancellation at the first checkpoint gives [] with one report, and the collaborators' answers make no difference |
| GeneSearch.NoPapersFound | src/workflows/gene_search.py:114-117 | no PMIDs gives [] and a final step-4 "No papers found" report |
| GeneSearch.CancelledBeforeScreening | src/workflows/gene_search.py:119-131 | a cancellation after the search or the fetch gives [] with no screening report |
| GeneSearch.AfterScreeningRanked | src/workflows/gene_search.py:172-220 | whatever the ranking step returns is ranked like the selection |
| GeneSearch.FromPapersRanked | src/workflows/gene_search.py:134-220 | whatever the run from screening returns is ranked |
| GeneSearch.SearchResultRanked | src/workflows/gene_search.py:173-175 | a search result holds at most top_n relevant records, best score first |
| Server.StatusName | server.py:220-225 | each status maps to one of the five status strings |
| Server.StatusNamesDistinct | server.py:220-225 | distinct statuses give distinct strings |
| Server.Replayed | server.py:123-136 | replaying the reports through the callback touches only that task |
| Server.ReplayedEntry | server.py:123-136 | after a report the task is running with the last report as its progress; its result and error are kept |
| Server.ConcludedEntry | server.py:138-150 | a finished run leaves the task cancelled (results dropped), completed with {results, count}, or failed with the exception's message |
| Server.RunGeneSearchTaskAsWritten | server.py:107-150 | as written, an unknown id is left alone and every known task ends failed with the keyword error |
| Server.AsWrittenNeverCompletes | server.py:128-136 | the as-written runner never completes a task |
| Server.RunGeneSearchTask | server.py:107-150 | an unknown id is left alone; otherwise the registry ends as the search's reports replayed and then its outcome recorded, with the token as a concurrent cancel left it at line 139; a run whose search saw a cancellation never ends completed, and one whose token was not flipped by line 139 never ends cancelled |
| Server.Finish | server.py:123-150 | after the search, the reports are replayed, the token ends flipped if it was or a concurrent cancel came, every other token is unchanged, and the outcome is recorded as the token says: a flipped token ends cancelled or failed, an unflipped one completed or failed |
| Server.Deliver | server.py:123-136 | the callback stores each report in order |
| Server.Conclude | server.py:138-150 | the outcome write reads the token: cancelled, completed or failed |
| Server.CancelledRunEndsCancelled | server.py:139-140 | a cancelled run whose search returns ends cancelled with its last progress and no stored result |
| Server.StartGeneSearch | server.py:178-210 | the start endpoint registers a pending task with a fresh, uncancelled token, leaves every other task and token as it was, and answers "pending" |
| Server.StatusAnswer | server.py:214-243 | with a response model that accepts the stored records: an unknown id is a 404 "Task … not found"; a known one answers its stored status, progress, result and error |
| Server.GetTaskStatus | server.py:214-243 | the corrected status endpoint answers the status answer for the current state |
| Server.StatusAnswerAsWritten | server.py:233-239 | as written, a stored result holding any record makes the answer a 500; otherwise it is the corrected answer |
| Server.GetTaskStatusAsWritten | server.py:214-243 | the status endpoint as written answers the as-written status answer for the current state |
| Server.CompletedRunUnreadable | server.py:233-239 | after a run completes with at least one record, the endpoint as written answers 500 where the corrected one answers "completed" with the records and their count |
| Server.CancelTask | server.py:245-261 | the cancel endpoint flips the token, marks the task cancelled and answers "cancelling"; the set of cancelled tokens grows by exactly that id, every other token keeps its flag, and an unknown id is a 404 that changes neither the tasks nor any token |
| Screening.Prefix | src/tools/screening.py:90 | `s[:n]` is a prefix of s of length at most n, and s itself when short enough |
| Screening.KeywordsText | src/tools/screening.py:65 | keywords render as their ", "-join, or "None" when falsy |
| Screening.KeywordListText | src/tools/screening.py:65 | a non-empty list of strings renders as its join |
| Screening.MissingKeys | src/tools/screening.py:74-80 | the keys added are exactly the required keys the reply lacks |
| Screening.AddDefaultObj | src/tools/screening.py:74-80 | a guarded assignment adds the key with its default only when it is absent |
| Screening.AddDefaultOther | src/tools/screening.py:74-80 | a guarded assignment leaves every other key alone |
| Screening.FillKeys | src/tools/screening.py:74-80 | after filling, the keys are the reply's keys followed by the missing required keys |
| Screening.FillObjValues | src/tools/screening.py:74-80 | present reasoning, score and relevant keep their values (no clamping, no derivation); absent ones become "No reasoning provided", 0.0 and False |
| Screening.FillObjOthers | src/tools/screening.py:74-80 | keys other than the three are unchanged |
| Screening.FillSpecFilled | src/tools/screening.py:74-80 | the filled reply satisfies the defaults promise |
| Screening.FillDefaults | src/tools/screening.py:74-80 | the assignments in order compute the filled reply |
| Screening.MetadataVerdict | src/tools/screening.py:46-97 | an empty title gives the "Missing title" verdict without the LLM; a parse failure gives "LLM response parsing error: …"; other errors give "Screening error: …"; only the keyword join outside the `try` can raise; a verdict that is not a dict comes only from an LLM reply that parsed to a non-dict |
| Screening.ScreenPaperByMetadata | src/tools/screening.py:46-97 | the step-by-step screening returns exactly the verdict specification |
| Screening.WithPmid | src/tools/screening.py:110-114 | a raised screening gives its error object; a dict verdict gains "pmid"; a non-dict verdict gives the item-assignment error; the answer carries the pmid exactly when the verdict is a dict |
| Screening.ScreenPaperJson | src/tools/screening.py:102-114 | input that does not parse, or is not a dict, gives the matching error object; for a dict it is the verdict for its title and MeSH terms with its "pmid" (default "") added as stated for WithPmid; a falsy title gives the "Missing title" verdict with the pmid |
| PsiModMapping.FindExact | utils/psi_mod_mapping.py:97-98 | the first index whose key is the input, and no earlier match |
| PsiModMapping.FindCaseless | utils/psi_mod_mapping.py:101-103 | the first index whose key equals the input ignoring case |
| PsiModMapping.FindPartial | utils/psi_mod_mapping.py:105-109 | the first index whose key and the input contain one another (lower-cased) |
| PsiModMapping.IdIn | utils/psi_mod_mapping.py:86-111 | an id is found iff some tier matches, and it is the matched entry's id |
| PsiModMapping.GetPsiModId | utils/psi_mod_mapping.py:86-111 | any id returned is a value of the table |
| PsiModMapping.ExactTier | utils/psi_mod_mapping.py:97-98 | an input that is a key gets that key's entry |
| PsiModMapping.CaselessTier | utils/psi_mod_mapping.py:101-103 | otherwise the first key equal ignoring case decides |
| PsiModMapping.PartialTier | utils/psi_mod_mapping.py:105-109 | otherwise the first overlapping key decides |
| PsiModMapping.NoneIffNoMatch | utils/psi_mod_mapping.py:96-111 | None iff no entry matches in any tier |
| PsiModMapping.EmptyMatchesFirst | utils/psi_mod_mapping.py:105-109 | "" maps to "MOD:00046" through the substring tier |
| PsiModMapping.GetAllMappings | utils/psi_mod_mapping.py:114-121 | the copy has exactly the table's keys; being a value, changing it cannot change the table |
| PsiModMapping.AllMappingsAgree | utils/psi_mod_mapping.py:114-121 | every key maps to its last value in the table |
| PubMed.BuildSearchTerm | src/tools/pubmed.py:54-60 | the term is "(query)" followed by exactly the requested filter suffixes |
| PubMed.FiltersDetermineFlags | src/tools/pubmed.py:54-60 | the suffix determines which filters were asked for |
| PubMed.Search | src/tools/pubmed.py:38-74 | the search answers the ids, or one string starting "Error searching PubMed:" on failure |
| PubMed.StrippedNonBlank | src/tools/pubmed.py:93-94 | the pieces are non-empty and have no whitespace at either end, so stripping them again changes nothing (Text.TrimmedIffFixed) |
| PubMed.ParsePmidText | src/tools/pubmed.py:93-94 | parsed PMIDs are non-empty and hold no newline |
| PubMed.PmidTextRoundTrip | src/tools/pubmed.py:93-94 | non-empty PMIDs without newlines and without whitespace at either end, written one per line, parse back to themselves |
| PubMed.ItemIds | src/tools/pubmed.py:95-96 | a list input keeps `str(p)` of each truthy item, all non-empty |
| PubMed.ItemIdsOfStrings | src/tools/pubmed.py:95-96 | strings that are already PMIDs pass through unchanged |
| PubMed.NormalisePmids | src/tools/pubmed.py:93-96 | the normalised PMIDs are non-empty, whatever the input's form |
| PubMed.Batches | src/tools/pubmed.py:105-107 | each batch has 1 to 200 ids |
| PubMed.BatchesFlatten | src/tools/pubmed.py:105-107 | the batches cover the list in order without overlap |
| PubMed.BatchAt | src/tools/pubmed.py:105-107 | batch k is the slice starting at 200·k |
| PubMed.BatchCount | src/tools/pubmed.py:105-107 | there are ⌈n/200⌉ batches |
| PubMed.Year | src/tools/pubmed.py:123 | None for a missing or empty date, otherwise its first word; a whitespace-only date raises |
| PubMed.ConvertAll | src/tools/pubmed.py:118-127 | a batch gives one paper per record when none raises |
| PubMed.FetchBatches | src/tools/pubmed.py:101-131 | the loops compute the batch-by-batch fetch |
| PubMed.Fetch | src/tools/pubmed.py:76-134 | no PMIDs gives []; any exception discards the papers and gives one error record |
| PubMed.FetchedPapersOnly | src/tools/pubmed.py:101-131 | a fetch that succeeds gives paper records only |
| PubMed.FetchedPmidsInOrder | src/tools/pubmed.py:101-131 | with one record per PMID whose DP date parses (absent, empty, or with a first word), the papers carry exactly the requested PMIDs in order |
| PubMed.SearchAndFetch | src/tools/pubmed.py:136-157 | a search error becomes an error record without fetching; otherwise the ids are fetched |
| PubmedFetch.FetchAbstracts | src/tools/pubmed_fetch.py:15-64 | blank input gives [] with no request; PMIDs are the stripped non-empty lines, fetched in 200-batches; an exception gives one error record |
| PubmedFetch.BlankInputFetchesNothing | src/tools/pubmed_fetch.py:26-29 | input of only blank lines has no PMIDs |
| FetchData.Dedup | utils/fetch_data.py:558-565 | deduplication never lengthens its input |
| FetchData.DedupElements | utils/fetch_data.py:558-565 | the result has no repeats and exactly the input's elements |
| FetchData.DedupPrefix | utils/fetch_data.py:558-565 | first-occurrence order: deduplicating a prefix gives a prefix |
| FetchData.NonEmptyElements | utils/fetch_data.py:264-282 | the kept names are exactly the input's non-empty ones |
| FetchData.AbsorbStep | utils/fetch_data.py:264-282 | one `if alias and alias not in aliases` step appends exactly the new non-empty name |
| FetchData.Contribution | utils/fetch_data.py:67-71 | a missing or falsy field adds nothing, a bare symbol adds itself, a list adds its items |
| FetchData.GeneAliasesShape | utils/fetch_data.py:67-71 | the alias symbols come first, then the previous symbols |
| FetchData.EmptyFieldsSkipped | utils/fetch_data.py:67-71 | empty fields add no alias |
| FetchData.FromReply | utils/fetch_data.py:57-73 | the tuple is built from the first doc; missing or empty docs raise |
| FetchData.NotFoundIffAllEmpty | utils/fetch_data.py:38-57 | the "No gene found" error iff all three tiers report numFound 0 |
| FetchData.FirstHitDecides | utils/fetch_data.py:38-57 | a tier that finds the gene decides; later tiers are not consulted |
| FetchData.HitUsesFirstDoc | utils/fetch_data.py:38-73 | a successful lookup answers from the first doc of the first tier that found the gene |
| FetchData.CollectDomains | utils/fetch_data.py:139-157 | the nested loops compute the per-fragment domain list |
| FetchData.AppendLocationDomains | utils/fetch_data.py:145-157 | the inner loops append one protein's domains |
| FetchData.DomainsPerFragment | utils/fetch_data.py:139-157 | one domain per fragment, each with its entry's accession, name and type ("N/A" when missing) |
| FetchData.FetchInterproData | utils/fetch_data.py:109-159 | a failed request raises; 404 is "not found"; other HTTP errors raise; otherwise the domains |
| FetchData.ProteinAliases | utils/fetch_data.py:252-282 | the loops compute the deduplicated non-empty candidate names |
| FetchData.AbsorbAlternative | utils/fetch_data.py:272-282 | one alternative name adds its full name (unless it is the protein name), then its short names |
| FetchData.AbsorbNames | utils/fetch_data.py:264-282 | a short-name loop appends each new non-empty name |
| FetchData.AliasesProperties | utils/fetch_data.py:252-282 | aliases have no repeats and no empty name, and are exactly the non-empty names examined |
| FetchData.RecommendedShortNamesFirst | utils/fetch_data.py:264-268 | the recommended short names come first |
| FetchData.FirstFunction | utils/fetch_data.py:288-296 | the index of the first FUNCTION comment, with none before it |
| FetchData.ProteinFunction | utils/fetch_data.py:288-296 | the loop computes the first FUNCTION comment's first text, or "N/A" |
| FetchData.LaterCommentsIgnored | utils/fetch_data.py:288-296 | comments after the first FUNCTION comment never matter, even when it has no texts |
| FetchData.PtmTypeIsPrefix | utils/fetch_data.py:326 | the PTM type is the description up to its first ";" |
| FetchData.PtmData | utils/fetch_data.py:308-330 | the loops compute the PTM list |
| FetchData.PtmsFromPtmFeatures | utils/fetch_data.py:300-330 | one PTM per feature of the five PTM types, none for others; evidence "N/A" when none is listed |
| FetchData.FetchUniprotData | utils/fetch_data.py:212-332 | a failed request raises; no results raise "No protein found"; otherwise the first entry's data |
| FetchData.GeneSummary | utils/fetch_data.py:365-368 | a reply without "result" or without the id is an early return |
| FetchData.FetchRefseqTranscriptIds | utils/fetch_data.py:511-569 | the method computes the deduplicated NM_ ids |
| FetchData.DedupInOrder | utils/fetch_data.py:558-565 | the `seen` loop computes the deduplication |
| FetchData.TranscriptIdsUnique | utils/fetch_data.py:541-565 | the ids hold every NM_ match once, in first-occurrence order |
| FetchData.NoTranscriptIdsWithoutEntry | utils/fetch_data.py:521-522 | an unusable id, a failed request or no entry gives [] |
| FetchData.FetchRefseqData | utils/fetch_data.py:335-395 | the method computes the NM_/NP_ pair |
| FetchData.RefseqIdsFromFields | utils/fetch_data.py:375-389 | a found id matches a field mentioning "refseq" and the prefix |
| FetchData.FetchEnsemblProteinId | utils/fetch_data.py:398-441 | the method computes the Ensembl protein id |
| FetchData.FoundUnderEnsemblXref | utils/fetch_data.py:426-435 | a found id is the value of a "ProteinId" property of an Ensembl cross-reference |
| FetchData.FetchEnsemblTranscripts | utils/fetch_data.py:444-508 | the method computes the transcript list |
| FetchData.TranscriptsAreEnst | utils/fetch_data.py:490-502 | one transcript per dict item whose id starts with "ENST", with no translation id |
| DatabaseOperations.MergeTableNames | utils/database_operations.py:75-78 | the inner loop computes the table-name merge |
| DatabaseOperations.MergeDefaults | utils/database_operations.py:71-78 | the outer loop computes the merge |
| DatabaseOperations.LoadMergedDocument | utils/database_operations.py:45-80 | a None document counts as {}; its database section is merged |
| DatabaseOperations.LoadDatabaseConfig | utils/database_operations.py:34-104 | the loader computes the configuration |
| DatabaseOperations.MergeTablesKeeps | utils/database_operations.py:75-78 | user tables are kept; only missing names are added |
| DatabaseOperations.SchemaStep | utils/database_operations.py:71-74 | a missing schema becomes None; nothing else changes |
| DatabaseOperations.TablesStep | utils/database_operations.py:71-78 | missing tables become the defaults; present tables are merged by name |
| DatabaseOperations.MergeKeepsUserKeys | utils/database_operations.py:71-78 | every user key is kept; schema and tables are filled; nothing else is added |
| DatabaseOperations.NullDocumentIsDefault | utils/database_operations.py:49-98 | an empty document and a missing file give the same configuration |
| DatabaseOperations.MissingFileDefaults | utils/database_operations.py:82-98 | a missing file gives the nine table names mapped to themselves and no schema |
| DatabaseOperations.BuildIntervals | utils/database_operations.py:704-712 | the loop computes the intervals |
| DatabaseOperations.BuildPtmRows | utils/database_operations.py:754-772 | the loop computes the PTM rows |
| DatabaseOperations.CountMapped | utils/database_operations.py:774 | the loop counts the mapped PTMs |
| DatabaseOperations.InsertProtein | utils/database_operations.py:656-775 | the method computes the protein plan |
| DatabaseOperations.InsertGeneData | utils/database_operations.py:535-813 | the method computes the rows `insert_gene_data` writes, or its error |
| DatabaseOperations.InsertRows | utils/database_operations.py:565-807 | the rows after the configuration loads |
| DatabaseOperations.MissingEnsemblRaises | utils/database_operations.py:567-569 | a missing or "N/A" Ensembl id raises before any row |
| DatabaseOperations.GeneRowSentinels | utils/database_operations.py:597-609 | the DNA, its type "genomic" and its length are stored together exactly when the DNA is present and not "N/A" |
| DatabaseOperations.ProteinRowSentinels | utils/database_operations.py:661-693 | the entry name is the symbol (or "UNKNOWN") + "_HUMAN"; length and sequence follow the "N/A" rule |
| DatabaseOperations.IntervalsOnePerDomain | utils/database_operations.py:704-712 | one interval per domain, in order, iff every domain is a dict |
| DatabaseOperations.IntervalShape | utils/database_operations.py:707-712 | type defaults to "domain", the other fields to None |
| DatabaseOperations.SequenceRowHasIntervals | utils/database_operations.py:701-737 | the sequence row, when written, always carries the intervals |
| DatabaseOperations.PtmRowsOnePerPtm | utils/database_operations.py:754-772 | one row per PTM, in order, iff every PTM gives a row |
| DatabaseOperations.PtmRowShape | utils/database_operations.py:755-761 | a row carries the type, its PSI-MOD id and evidence {"source": "UniProt", "evidence_code": evidence or ""} |
| DatabaseOperations.PtmWithoutTypeRaises | utils/database_operations.py:755-761 | a PTM without a string type makes the insert raise |
| DatabaseOperations.MappedCountBounds | utils/database_operations.py:774 | the mapped count is at most the PTM count and counts exactly the rows with an id |
| DatabaseOperations.LongevityRowShape | utils/database_operations.py:777-800 | the longevity row is written only for truthy aging data, with list defaults [] and source "Open Genes" |
| ApiDatabase.LoadApiConfig | api/database.py:15-52 | the loader gives the merged section over six tables, or the fallback on any error |
| ApiDatabase.MissingFileFallsBack | api/database.py:15-52 | a missing file, or a document that is not a dict, gives {"schema": "seq2func", "tables": {}} |
| ApiDatabase.ApiMergeKeepsUserKeys | api/database.py:27-47 | user keys are kept; a missing schema becomes None; missing tables become the six defaults; a present tables dict keeps its entries and gains the missing default tables |
| ApiDatabase.DomainOf | api/database.py:197-204 | a domain is built iff the interval is a dict |
| ApiDatabase.DomainFields | api/database.py:197-204 | domain_id is protein_id + "_domain_" + i; accession, name and type default to ""; the positions default to None |
| ApiDatabase.RowDomainsSucceeds | api/database.py:196-204 | a row yields its domains iff every interval is a dict; one non-dict interval makes `.get` raise |
| ApiDatabase.RowDomainsValues | api/database.py:197-205 | a row that yields domains yields one per interval, in order, numbered from 0, with the dict's fields or their defaults |
| ApiDatabase.AppendRowDomains | api/database.py:196-204 | the inner loop appends one row's domains or raises |
| ApiDatabase.ProteinDomains | api/database.py:193-206 | the nested loops compute the domain list |
| ApiDatabase.NonListRowsIgnored | api/database.py:195-196 | a row that is not a non-empty list adds nothing |
| ApiDatabase.IdsRestartPerRow | api/database.py:197-199 | numbering restarts per row, so two rows can give the same domain id |
| ApiDatabase.ExtractLongevity | api/database.py:150-155 | the assignments compute the longevity fields |
| ApiDatabase.LongevityFields | api/database.py:150-155 | with a non-empty evidence dict the four fields are copied (None or [] when absent) and every other key is unchanged; otherwise the row is unchanged |
| ProteinConfig.ActiveProteins | utils/gene_master.py:52 | the filter never lengthens the list |
| ProteinConfig.ActiveProteinsAppend | utils/gene_master.py:52 | the filter keeps input order |
| ProteinConfig.ActiveProteinsMembers | utils/gene_master.py:52 | a name is kept iff some string entry strips to it and is not a comment |
| ProteinConfig.ActiveProteinsStripped | utils/gene_master.py:52 | every kept name is stripped and does not start with "#" |
| ProteinConfig.BlankEntryKept | utils/gene_master.py:52 | a blank entry comes back as "" |
| ProteinConfig.LoadProteins | utils/gene_master.py:39-60 | a missing or unreadable file, or a document that is not a dict, gives [] |
| ProteinConfig.LoadProteinsList | utils/gene_master.py:49-53 | a proteins list gives its active entries; no key gives [] |
| GeneMaster.GeneRecordOf | utils/gene_master.py:63-104 | None on an HGNC failure or an unusable Ensembl id; gene_id equals ensembl_gene_id |
| GeneMaster.GeneRecordShape | utils/gene_master.py:80-101 | a record exists iff the lookup succeeded with a usable Ensembl id and a parseable NCBI id; it then carries the symbol (or the input) and the aliases as JSON |
| GeneMaster.AliasesJsonIsDump | utils/gene_master.py:91 | the `else '[]'` branch equals `json.dumps([])` |
| GeneMaster.NcbiGeneIdRoundTrip | utils/gene_master.py:89 | an integer's text reads back as itself; "N/A" and "" give None |
| GeneMaster.BadNcbiIdLosesRecord | utils/gene_master.py:89-104 | an NCBI id that `int()` refuses loses the record |
| ProteinMaster.ProteinRecordAsWritten | utils/protein_master.py:69-137 | as written, an HGNC failure always gives None |
| ProteinMaster.ProteinRecordOf | utils/protein_master.py:69-137 | a record exists iff UniProt succeeded with a usable id |
| ProteinMaster.UnboundSymbolLosesRecord | utils/protein_master.py:84-137 | as written the record is lost; the corrected one keeps it under the input symbol |
| ProteinMaster.AgreeWhenHgncSucceeds | utils/protein_master.py:69-137 | the two agree when HGNC succeeds |
| ProteinMaster.ProteinRecordShape | utils/protein_master.py:104-133 | protein_id equals the UniProt id; the Ensembl and RefSeq ids default to ""; the symbol is the approved one or the input |
| ProteinMaster.RefseqOnlyWithNcbiId | utils/protein_master.py:110-111 | without a usable NCBI id the RefSeq lookup is never consulted |
| GeneTranscriptProtein.TranscriptRecords | utils/gene_transcript_protein.py:141-165 | one record per transcript, record i built from transcript i |
| GeneTranscriptProtein.BuildTranscriptRecords | utils/gene_transcript_protein.py:141-165 | the loop computes the per-transcript records |
| GeneTranscriptProtein.FetchMappingRecords | utils/gene_transcript_protein.py:69-185 | the function computes the mapping records |
| GeneTranscriptProtein.RecordCount | utils/gene_transcript_protein.py:83-178 | [] on an HGNC failure or an unusable Ensembl id; otherwise k records in transcript order, or one record without a transcript |
| GeneTranscriptProtein.SharedFields | utils/gene_transcript_protein.py:104-178 | every record shares the gene ids and the symbol, has the first RefSeq transcript or None, and has protein_symbol = input iff UniProt gave a usable id |
| GeneTranscriptProtein.ProteinIdChoice | utils/gene_transcript_protein.py:143-146 | the translation id if truthy, else the gene-level Ensembl protein id (None without a usable UniProt id) |
| GeneTranscriptProtein.EnsemblTranscriptsUseGeneLevelId | utils/gene_transcript_protein.py:137-165 | with the transcripts the Ensembl overlap lookup returns, which carry no translation id, every record holds the gene-level Ensembl protein id |
| GeneTranscriptProtein.LookupsOnlyWhenNeeded | utils/gene_transcript_protein.py:104-134 | the Ensembl protein lookup is used only with a usable UniProt id, the RefSeq lookup only with a usable NCBI id |

## Left out

- HTTP requests, SQL statements and connections, YAML parsing, file access, the LLM and Entrez are not modelled. Their answers are parameters: a decoded value or the raised exception.
- Server.RunGeneSearchTask: of a concurrent `cancel_task` only the token flip is modelled; its own write of the "cancelled" status, interleaved with the progress writes, is not.
- Threads and locks are left out. The reaper's five-minute wait loop is modelled as one pass with a given `now`; `datetime.now()` and `uuid4()` are parameters.
- TaskManager.TaskManager.GetTask returns a snapshot of the record; Python returns the live dataclass, so later aliasing through it is not modelled.
- TaskManager.NewTask: `created_at` and `updated_at` are two separate `datetime.now()` calls in the source; the model reads the clock once and gives both fields that reading.
- Server: `options_handler`, `root` and `agent` are left out; the worker thread's start is not modelled.
- GeneSearch: `save_results` and `batch_search_genes` (file output and a loop over genes) are left out; the query builder and the screening class are abstract parameters, since no source for them exists.
- DatabaseOperations.InsertGeneData takes the PSI-MOD table as a parameter; in the program it is the table of utils/psi_mod_mapping.py.
- GeneMaster.NcbiGeneId: `int()` is modelled for an optional sign and ASCII digits after strip. Underscores and non-ASCII digits are not modelled.
- Lower-casing works on ASCII letters only; `strip` uses the whitespace set of Python's `str.isspace()`.
- LLM scores are reals, because only their order matters.
- FetchData: `fetch_ensembl_data` and `fetch_opengenes_data` are left out. They are outside the modelled core, and their shaping is a 404 check, field defaults ("N/A") and list comprehensions over the reply.
- ApiDatabase: the query methods other than the two reshapings in `get_gene_by_id`, and `DatabaseService.__init__`, are left out (SQL only).
- The `populate_*`, `fetch_*_from_db`, `export_*_csv` and `main` functions of the three master scripts are left out (SQL and CSV output); so are `create_schema`, `connect_to_database` and `close_connection`.
- The three copies of `load_proteins_from_config` are modelled once.
- The tool wrappers (`create_search_tool`, `create_fetch_tool`, `create_pubmed_fetch_tool`) are left out; `json.dumps` of a whole verdict is the value it serialises.

## Findings

| source | as written | input that shows it | evidently intended | confidence | as-written member | corrected member |
|---|---|---|---|---|---|---|
| server.py:128-136 | `search_gene` is called with `gene_id=`, which it does not accept, so it raises `TypeError` before searching | any task started through `/agent/start` | call the search without that keyword, so that tasks can complete | not executed | Server.AsWrittenNeverCompletes | Server.RunGeneSearchTask |
| server.py:233-239 | `SearchResponse(**task_info.result)` validates each stored record as a `PaperResult`, which requires `gene_symbol`; the search stores that value under `symbol` (and `year` may be None), so validation raises | any task that completed with at least one record | answer the stored records, with a response model that matches them | not executed | Server.CompletedRunUnreadable | Server.GetTaskStatus |
| utils/protein_master.py:84-137 | when the HGNC lookup raises, `approved_symbol` is never bound; reading it raises `UnboundLocalError` and the record is lost | a symbol UniProt knows but HGNC does not | fall back on the input symbol, as the handler's `ncbi_gene_id = None` suggests | not executed | ProteinMaster.UnboundSymbolLosesRecord | ProteinMaster.ProteinRecordOf |
