# BNTL search, ingestion and vectorizer — a Dafny model

BNTL (Bibliografie van de Nederlandse Taal- en Literatuurwetenschap) is a
bibliographic database served by a FastAPI application over MongoDB, with a
separate vectorizer service that turns record texts into embeddings. This project
models the core of both halves and proves what each part promises:

- **Search.** The Mongo filters that `build_query` makes from a search form
  (bntl/db.py and its older twin bntl/queries.py). The `/query` route of app.py
  builds its own inline copy. `find`, `find_one` and `find_last_added` read
  results back. Pagination splits them into pages. The request models check
  their parameters.
- **Ingestion.** `fix_year` normalises year strings such as `197X`, `1987-2024`
  and `1987-`. `insert_documents` runs the batch loop of bntl/db_client.py and
  bntl/ingest.py over an in-memory collection whose ordered `insert_many`
  stamps ids and stops at the first duplicate key. The upload manager
  reassembles chunked files and reports status.
- **Rendering.** The utilities render a record as text: `maybe_list`,
  `replace_ris`, `DOC_REPR` and `default_to_regular`.
- **Vectorizer.** The task store (tasks and per-text vector slots), the worker
  that encodes texts and records statuses, the `/vectorize` and `/check-status`
  endpoints, and the client that submits a task and polls until it is done.

## Module layout

One module per source file:

| module (file) | source file | what it holds |
|---|---|---|
| `Common` (common.dfy) | shared | Python values, `Result`/`Option`, `str.split`/`join`/`replace`, `int()` on strings |
| `Filter` (filter.dfy) | shared | Mongo filters, the clauses shared by both builders, and a filter evaluator. Regex and equality matching go through an `Engine` parameter. |
| `Db` (bntl_db.dfy) | bntl/db.py | `build_query`, `find_one`, `find_last_added`, `full_text_search`, `create_text_index` |
| `Queries` (bntl_queries.dfy) | bntl/queries.py | the older `build_query` and `SearchQuery` |
| `AppQuery` (app_query.dfy) | app.py | the `/query` route |
| `DbClient` (db_client.dfy) | bntl/db_client.py | `fix_year`, the loader's strict `EntryModel`, `find` |
| `Store` (store.dfy) | pymongo | a collection: ids, unique keys, ordered `insert_many` |
| `Batches` (batch.dfy) | bntl/db_client.py, bntl/ingest.py | the `insert_documents` loops, over an `array` and a `Collection` |
| `Ingest` (bntl_ingest.dfy) | bntl/ingest.py | `get_doc_text`, `convert_to_text`, `validate` |
| `Upload` (bntl_upload.dfy) | bntl/upload.py | `FileUploadManager` and `Status.__get_classes__` |
| `Pagination` (pagination.dfy) | bntl/pagination.py | `paginate` |
| `Utils` (bntl_utils.dfy) | bntl/utils.py | `default_to_regular`, `maybe_list`, `replace_ris`, `DOC_REPR` |
| `BntlModels` (bntl_models.dfy) | bntl/models.py | pydantic validation of the entry, query, page, vector-params and status models |
| `VecModels` (vec_models.dfy) | vectorizer/models.py | `Status`, `TaskModel`, `VectorModel` |
| `VecDb` (vec_db.dfy) | vectorizer/db.py | the `TaskStore` class: `create_task`, `get_task`, `update_task_status`, `_clear_up` |
| `VecServer` (vec_server.dfy) | vectorizer/server.py | `vectorize_task` as written and as intended, `/vectorize`, `/check-status` |
| `VecClient` (vec_client.dfy) | vectorizer/client.py | `get_retry_time`, `send_vectorizer_task_and_poll` |

Where the source changes state step by step, the model is imperative:

- `BuildQuery` grows a clause list with conditional appends.
- `InsertDocuments` rewrites records in an `array` and inserts into a
  `Collection` object.
- `FileUploadManager` and `TaskStore` are classes with `modifies` clauses.
- `SendAndPoll` and `VectorizeTask` are loops.

Each of these methods is proved equal to a specification function, and the
lemmas state what that function means.

## Model

| member | source | states |
|---|---|---|
| Filter.ClausesCount | bntl/db.py:151-192 | a query has exactly one clause per filter that was given |
| Filter.ParseYearRange | bntl/db.py:166-168 | a year range parses exactly when splitting on '-' gives two parts and `int()` accepts both, surrounding whitespace and `_` separators included |
| Filter.YearClause | bntl/db.py:165-175 | a year with '-' yields a clause exactly when it parses as a range, and then the range clause of its two ints; a year without '-' exactly when `int()` accepts it, and then the single-year clause of its value |
| Filter.OpenEndedRangeRefused | bntl/db.py:166-168 | the open range "1987-" is refused by the search builder (unlike fix_year, which accepts it) |
| Filter.RangeYearClause | bntl/db.py:166-172 | a year "a-b" whose two dash-free parts `int()` reads as x and y gives the range clause from x to y |
| Filter.SpacedRangeAccepted | bntl/db.py:166-172 | "1980 - 1990" gives the range clause from 1980 to 1990, as `int()` strips the spaces of each part |
| Filter.ClausesMeans | bntl/db.py:151-192 | a document satisfies all clauses iff it has the given type, a title field matching the title matcher, satisfies the year clause, has an author field matching, and has matching keywords, each only when given |
| Filter.SelectMeans | bntl/db.py:59-61 | the selected documents are exactly the collection's documents that satisfy the filter |
| Filter.SelectAppend | bntl/db.py:59-61 | selection keeps collection order and multiplicity: selecting from two collections one after the other is selecting from each in turn |
| Filter.SelectOne | bntl/db.py:59-61 | a one-document collection selects that document iff it satisfies the filter |
| Filter.CombineMeansAll | bntl/db.py:194-199 | `{}`, the single clause, or `$and` of the clauses all mean the conjunction of the clauses |
| Filter.AnyFieldMeans | bntl/db.py:161-163 | the `$or` over fields holds iff the matcher matches under at least one present field |
| Filter.YearRangeMeans | bntl/db.py:169-172 | the range clause holds iff year or end_year lies in [start, end) |
| Filter.SingleYearMeans | bntl/db.py:174-175 | the single-year clause holds iff year >= y and end_year <= y + 1 |
| Filter.SingleYearSelectsYear | bntl/db.py:174-175 | for an entry with end_year = year + 1 (as fix_year makes it), the clause selects exactly the entries of year y |
| Filter.RangeIsNotIntersection | bntl/db.py:169-172 | an entry spanning 1980-2000 is not found by the range 1985-1990 although the spans overlap |
| Filter.RangeSelectsYearBefore | bntl/db.py:169-172 | an entry of 1979 (end_year 1980) is found by the range 1980-1990 |
| Db.BuildQuery | bntl/db.py:131-201 | the append-by-append builder returns the filter of `BuildQuerySpec` |
| Db.ClausesAppended | bntl/db.py:151-192 | the five conditional appends produce the clause list in type, title, year, author, keywords order |
| Db.FullTextShortcut | bntl/db.py:148-149 | a non-empty full_text returns `{"full_text": ...}` whatever else is given, and that filter selects no entry lacking such a field |
| Db.BuildQueryFails | bntl/db.py:165-175 | the builder fails iff there is no full-text shortcut and the year is given but unparsable |
| Db.BuildQueryShape | bntl/db.py:151-199 | one clause per given filter; none gives `{}`, one gives that clause unwrapped, two or more give `$and` of them; the type clause comes first and the keywords clause last |
| Db.BuildQueryMeans | bntl/db.py:151-199 | the built filter selects exactly the documents meeting every given filter, with regex matchers case-insensitive unless the case flag is set |
| Db.NoFiltersMatchAll | bntl/db.py:197-199 | the default parameters build `{}`, which selects every document |
| Db.RenameId | bntl/db.py:66 | `doc_id` replaces `_id` and holds its text, all other fields kept; KeyError iff `_id` is missing |
| Db.FirstWithId | bntl/db.py:64 | the position of the first document with the id, or None iff no document has it |
| Db.FindOne | bntl/db.py:63-67 | InvalidId iff the string is not 24 hex digits; None iff no document has that id; otherwise a document with the id, renamed |
| Db.CanonicalIdempotent | bntl/db.py:64 | lower-casing an ObjectId string twice is lower-casing it once and keeps it valid |
| Db.FindOneIgnoresCase | bntl/db.py:64 | upper- and lower-case spellings of an id find the same document |
| Db.FindOneFindsStored | bntl/db.py:63-67 | a stored document is found by its own id and comes back with `doc_id` equal to it and no `_id` |
| Db.TopCount | bntl/db.py:69-78 | exactly min(top, n) documents are taken when top > 0, and none when top <= 0 |
| Db.FindLastAdded | bntl/db.py:69-78 | the method returns the first TopCount documents of the cursor, each renamed; KeyError iff one of them lacks `_id` |
| Db.NewestFirstPairs | bntl/db.py:72 | in a descending cursor every earlier document is at least as new as every later one |
| Db.LastAddedAreNewest | bntl/db.py:69-78 | every document returned is at least as new as every document left out |
| Db.Client.constructor | bntl/db.py:34-46 | the client records whether it runs on Atlas and the collection it reads |
| Db.Client.FullTextSearch | bntl/db.py:80-87 | ValueError iff not on Atlas; otherwise a search on index "default" over every path, with the fuzzy options iff fuzzy is set |
| Db.CreateTextIndex | bntl/db.py:122-128 | the collection is text-indexed afterwards unless on Atlas; documents untouched |
| Queries.DefaultSearchQuery | bntl/queries.py:7-17 | every filter absent and every regex flag off |
| Queries.BuildQuery | bntl/queries.py:20-72 | the append-by-append builder returns the filter of `Queries.BuildQuerySpec` |
| Queries.AgreesWithCurrentBuilder | bntl/queries.py:31-72 | the older builder equals bntl/db.py's with every case flag set and no full text |
| Queries.BuildQueryMeans | bntl/queries.py:33-63 | the filter selects exactly the documents meeting every given filter, regexes case-sensitive |
| Queries.BuildQueryShape | bntl/queries.py:31-70 | one clause per given filter; none gives `{}`, one gives that clause unwrapped, two or more give `$and` of them; the type clause comes first and the keywords clause last |
| AppQuery.StripIds | app.py:103-105 | every item loses exactly its `_id`; KeyError iff some item lacks one |
| AppQuery.BuildFilter | app.py:58-97 | the route's append-by-append filter equals `AppFilter` |
| AppQuery.PopIds | app.py:102-105 | the in-place pop loop computes `StripIds` |
| AppQuery.Query | app.py:101-107 | the handler returns `QuerySpec`: filter, find with limit and skip, pop ids |
| AppQuery.QueryResults | app.py:101-107 | a negative skip is an error, and otherwise the handler returns when every stored document has an `_id`; what it returns is exactly the matching documents from position skip on, at most abs(limit) of them (all when limit is 0), each without `_id` |
| AppQuery.AgreesWithQueriesOffSingleYear | app.py:58-97 | without a year, or with a range, the route builds what bntl/queries.py builds |
| AppQuery.AppSingleYearMatchesNoEntry | app.py:77-79 | the route's single-year clause compares ints with a string and so matches no stored entry |
| AppQuery.SingleYearSearchFindsNothing | app.py:77-79 | any single-year search through the route returns no results |
| AppQuery.CorrectedAgreesWithQueries | app.py:58-97 | with the year converted as bntl/db.py does, the route equals bntl/queries.py for every input and selects exactly the entries of that year |
| DbClient.MatchRange | bntl/db_client.py:71 | the regex matches iff the string starts with four digits and '-'; the optional end group is four digits |
| DbClient.FixYearFrame | bntl/db_client.py:57-78 | fix_year changes no field other than year and end_year |
| DbClient.FixYearMissing | bntl/db_client.py:61-67 | a missing year raises KeyError; a None year raises TypeError |
| DbClient.FixYearIntegral | bntl/db_client.py:61-64 | a year `int()` accepts (surrounding whitespace and `_` separators included) is kept as given and end_year becomes its value + 1 |
| DbClient.FixYearPadded | bntl/db_client.py:61-64 | the padded year " 1987 " is kept and gets end_year 1988 |
| DbClient.RangeNotInt | bntl/db_client.py:62-71 | a year that starts with four digits and '-' is never int-convertible, so only the range branch sees it |
| DbClient.FixYearString | bntl/db_client.py:65-76 | a year string ends with no 'X'; YearFormatException iff the 'X'-replaced text has '-' but does not start with four digits and '-'; end_year set iff int or range |
| DbClient.FixYearUndated | bntl/db_client.py:65-78 | "197X" becomes "1975" with no end_year; "abc" passes unchanged |
| DbClient.FixYearRange | bntl/db_client.py:70-76 | a range keeps its first four digits as year and takes the end digits, or start + 1, as end_year |
| DbClient.FixYearShortEnd | bntl/db_client.py:71-76 | "1987-90" gives end_year 1988 (two digits do not match) |
| DbClient.FixYearFullRange | bntl/db_client.py:74-76 | "1987-2024" gives year "1987" and end_year "2024" |
| DbClient.FixYearOpenRange | bntl/db_client.py:71-76 | "1987-" gives end_year 1988 |
| DbClient.FixYearMalformed | bntl/db_client.py:67-73 | "X-1" becomes "5-1" and raises YearFormatException |
| DbClient.StrictEntryRequires | bntl/db_client.py:17-25 | a record passes the loader's schema only with its six mandatory fields present and not None |
| DbClient.UndatedRangeRejected | bntl/db_client.py:22-25 | an undated "197X" record gets no end_year and is rejected by the loader's schema |
| DbClient.Find | bntl/db_client.py:121-123 | Err iff skip < 0; otherwise exactly the documents matching the filter from position skip on, in collection order, at most abs(limit) of them (all when limit is 0) |
| Store.CanonicalOid | bntl/db.py:64 | `str(ObjectId(s))` keeps the length and lower-cases each hex digit |
| Store.OidOf | bntl/db.py:66 | generated ids are valid, lower-case ObjectId strings |
| Store.Stamp | bntl/ingest.py:72 | a stored document keeps every key and value it was given and has an `_id`: its own, or else the n-th fresh ObjectId |
| Store.InsertFromShape | bntl/ingest.py:72 | ordered insertion ends with all documents stored, or with the prefix before the first clash plus one duplicate-key error |
| Store.InsertFromStep | bntl/ingest.py:72 | one step stores the stamped document unless it clashes on a unique key, where it stops |
| Store.InsertManyOutcomes | bntl/ingest.py:71-72 | an empty batch raises and stores nothing; otherwise all stored in order, or the prefix before the first duplicate with exactly one duplicate-key error |
| Store.InsertManyAppends | bntl/ingest.py:72 | insert_many never changes documents already stored |
| Store.InsertManyRaises | bntl/ingest.py:71-72 | insert_many raises exactly on an empty list |
| Store.ReportedErrors | bntl/ingest.py:74 | the reported write errors are exactly those whose code is not 11000 |
| Store.InsertManyReportsNothing | bntl/ingest.py:73-76 | this collection's insert_many never yields an error the loader would report |
| Store.InsertOrdered | bntl/ingest.py:72 | the insertion loop computes `InsertMany` |
| Store.Collection.constructor | bntl/db_client.py:81-86 | a new collection is empty, `_id` is unique |
| Store.Collection.InsertManyOrdered | bntl/db_client.py:115 | the collection becomes `InsertMany` of its old state and the id counter advances by the batch size |
| Store.Collection.CreateTextIndex | bntl/db.py:128 | the collection becomes text-indexed, documents unchanged |
| Batches.Caught | bntl/ingest.py:60-62 | a YearFormatException drops the record; any other exception out of fix_year aborts |
| Batches.IngestionKeeps | bntl/ingest.py:55-59 | a kept record carries its ingestion time and a truthy title |
| Batches.IngestionSteps | bntl/ingest.py:53-69 | the record is rewritten by fix_year; aborts iff fix_year raises something other than YearFormatException; drops only on year, validation or missing-field errors |
| Batches.AtlasSteps | bntl/db_client.py:101-112 | same for the Atlas loader, a kept record being the strict schema's validated form |
| Batches.BatchFrom | bntl/ingest.py:53-69 | the inner loop keeps the list length and counts every record it examines |
| Batches.BatchFromFacts | bntl/ingest.py:53-69 | the inner loop aborts iff a record aborts; otherwise it keeps exactly the kept records and rewrites exactly its range |
| Batches.RunFromOk | bntl/ingest.py:48-76 | a call completes iff every batch has no uncaught exception and keeps a record; the counter then ends at n |
| Batches.RunFromInputs | bntl/ingest.py:53-55 | a completed call has handled every remaining record exactly once, in place |
| Batches.RunFromAppends | bntl/ingest.py:72 | documents already in the collection are never touched |
| Batches.RunFromStoresKept | bntl/ingest.py:59-72 | whatever holds of every kept record holds of every stored document |
| Batches.RunFromAdvance | bntl/ingest.py:48-76 | a run is its first batch followed, unless that raised, by the run from the next batch |
| Batches.IngestionStoresStamped | bntl/ingest.py:55-59 | every document the ingestion loader stores has its ingestion time and a truthy title |
| Batches.IngestionAsWrittenFails | bntl/ingest.py:55-62 | as written the loader stores nothing and raises AttributeError on the first record: `utils.fix_year` is missing and evaluating `except utils.YearFormatException` raises again |
| Batches.InsertDocumentsCompletes | bntl/ingest.py:43-76 | with batch_size > 0: completes iff every batch completes; then counter = n and every record handled once in order; the old documents stay a prefix |
| Batches.InsertDocumentsDegenerate | bntl/ingest.py:48 | batch_size 0 raises and a negative one does nothing; neither touches the records or the collection |
| Batches.ExamineBatch | bntl/ingest.py:52-69 | the array loop computes `BatchFrom` and rewrites the array in place |
| Batches.InsertTurn | bntl/ingest.py:49-76 | one outer-loop turn on the array and collection computes `Turn` |
| Batches.InsertBatch | bntl/ingest.py:49-76 | one turn advances the run still to go by one batch |
| Batches.InsertBatches | bntl/ingest.py:48-76 | the outer loop computes `RunFrom` |
| Batches.InsertDocuments | bntl/db_client.py:94-119 | the whole call on the array and collection computes `InsertDocumentsSpec` |
| Ingest.JoinKeywords | bntl/ingest.py:25-26 | a list joins its items with "; " and a string its characters; None, a bool, an int, a datetime or an ObjectId raises TypeError |
| Ingest.Validate | bntl/ingest.py:38-40 | an error iff the title is falsy: KeyError when it is absent, otherwise MissingFieldException (the intended `utils.MissingFieldException`) |
| Ingest.DocTextIsJoin | bntl/ingest.py:20-35 | the embedded text is title, secondary title and keywords joined by "; " |
| Ingest.IgnoredKeywordsDropped | bntl/ingest.py:31-35 | with ignore_keywords the text is the title part alone |
| Upload.GetClassesKeys | bntl/upload.py:18-32 | `__get_classes__` keeps exactly the names not starting with "__" |
| Upload.ConstNamesKept | bntl/upload.py:18-27 | no status constant name starts with "__" |
| Upload.InterpreterNamesDropped | bntl/upload.py:29-32 | every interpreter entry starts with "__" |
| Upload.StatusClasses | bntl/upload.py:18-32 | `__get_classes__` returns exactly the ten status constants, each name mapped to its status string |
| Upload.GetClassesValue | bntl/upload.py:29-32 | a kept name whose entries are distinct maps to the value it was declared with |
| Upload.AppendIfJoin | bntl/upload.py:37-40 | appending a truthy string adds one more "; "-joined part |
| Upload.TitleIsJoin | bntl/upload.py:36-40 | the title part is title, secondary title and tertiary title joined by "; " |
| Upload.UploadTextIsJoin | bntl/upload.py:35-53 | the uploaded text is title, secondary, tertiary titles and keywords joined by "; " |
| Upload.KeywordsAppended | bntl/upload.py:50-53 | keywords that are present and not ignored are appended |
| Upload.KeywordsLeftOut | bntl/upload.py:50-53 | otherwise the text is the title part alone |
| Upload.UploadAgreesWithIngest | bntl/upload.py:35-53 | without a tertiary title, upload and ingestion build the same text |
| Upload.AddChunkStores | bntl/upload.py:62-66 | the chunk is stored under its file and number and every other chunk stays |
| Upload.AssembleFromOk | bntl/upload.py:98 | reassembly succeeds iff every chunk number in range is present |
| Upload.Range | bntl/upload.py:98 | the chunk numbers 0 .. n-1, n of them |
| Upload.AssembleOk | bntl/upload.py:98 | a file reassembles iff its chunk numbers are exactly 0 .. k-1 |
| Upload.AssembleLength | bntl/upload.py:98 | the data is as long as its chunks together |
| Upload.ProcessOutcomes | bntl/upload.py:78-139 | every run that reports ends with exactly one terminal status, last; a parsed run reports first its INDEXING reports (the initial one and the callback's); every progress lies in [0, 1]; DONE iff the reports are those INDEXING reports, VECTORIZING and DONE |
| Upload.IngestOutcomes | bntl/upload.py:78-139 | once parsed, a run reports its INDEXING reports and then exactly one terminal status; DONE iff VECTORIZING and DONE follow them |
| Upload.VectorizeOutcomes | bntl/upload.py:117-139 | the vectorization block reports one terminal status, last, after at most VECTORIZING, and raises nothing |
| Upload.VectorizeAsWrittenFails | bntl/upload.py:116-132 | as written, `client.vectorize` raises AttributeError, so the block reports VECTORIZINGERROR last, after VECTORIZING when the records were fetched |
| Upload.ProcessAsWrittenNeverDone | bntl/upload.py:88-139 | as written, no report is ever DONE or VECTORINDEXINGERROR, and every run whose records were stored ends in VECTORIZINGERROR |
| Upload.ProgressReports | bntl/upload.py:78-86 | the callback's reports stop at the first count that fails; no exception iff every count is reported |
| Upload.ProgressReportsIndexing | bntl/upload.py:81-83 | each callback report is INDEXING with count / len(documents), a fraction in [0, 1] |
| Upload.ProgressAccepted | bntl/upload.py:81-83 | counts within [0, len] on a non-empty upload are all reported and none fails |
| Upload.ProgressRefused | bntl/upload.py:81-83 | an empty upload or a count outside [0, len] fails the ingestion call, with no report from that count on |
| Upload.ProgressReported | bntl/upload.py:78-106 | after ingestion the reports are INDEXING 0 and, in order, one INDEXING report of count / len(documents) per callback count |
| Upload.ProcessEarlyExits | bntl/upload.py:104-115 | an unparsable file reports UNKNOWNFORMAT alone; one with no stored record reports its INDEXING reports then EMPTYFILE |
| Upload.ProcessInsertFails | bntl/upload.py:78-111 | a failed ingestion, including one whose progress callback raises, reports its INDEXING reports and UNKNOWNERROR, then raises UnboundLocalError on doc_ids |
| Upload.FileUploadManager.constructor | bntl/upload.py:57-60 | no chunks and no reports |
| Upload.FileUploadManager.AddChunk | bntl/upload.py:62-66 | the buffer gains the chunk, reports unchanged |
| Upload.FileUploadManager.CollectData | bntl/upload.py:98 | returns the reassembly of the file's chunks; reading enters an empty buffer for an unknown file |
| Upload.FileUploadManager.UpdateStatus | bntl/upload.py:68-76 | appends one report for the file |
| Upload.FileUploadManager.ProcessFileTask | bntl/upload.py:88-139 | the reports appended and the escaped exception are those of `ProcessTrace`; the chunk buffer is unchanged except that reading enters an empty entry for an unknown file |
| Upload.FileUploadManager.IngestBlock | bntl/upload.py:103-139 | the reports appended and the escaped exception are those of `IngestTrace` |
| Upload.FileUploadManager.InsertDocuments | bntl/upload.py:78-86 | the callback loop appends the reports of `ProgressReports` and returns `InsertOutcome`, chunks unchanged |
| Upload.FileUploadManager.VectorizeBlock | bntl/upload.py:117-132 | the reports appended are those of `VectorizeStage`, chunks unchanged |
| Pagination.FloorDiv | bntl/pagination.py:29 | Python's `//`: the quotient rounded toward minus infinity |
| Pagination.Window | bntl/pagination.py:27 | Err iff skip < 0; otherwise the results from position skip on, at most abs(limit) of them (all when limit is 0), in order |
| Pagination.PageContents | bntl/pagination.py:27-39 | page p of size s holds results [(p-1)s, ps) cut at the end, transformed, in order, never more than s |
| Pagination.EchoesRequest | bntl/pagination.py:28-38 | the response echoes total, page and size; total_pages = total // size; the window is [max(1, p-4), min(total_pages, p+4)] |
| Pagination.RefusedRequests | bntl/pagination.py:27-29 | size 0 raises ZeroDivisionError; a page <= 0 with positive size gives a negative skip, an error |
| Pagination.FloorFacts | bntl/pagination.py:29 | total_pages * size <= n < (total_pages + 1) * size |
| Pagination.PageLength | bntl/pagination.py:27 | how many items page p holds |
| Pagination.TotalPagesFloor | bntl/pagination.py:29 | total_pages is the floor of total / size |
| Pagination.PartialPageUncounted | bntl/pagination.py:29 | a partial last page is not counted although it holds items |
| Pagination.NavigationWindow | bntl/pagination.py:30-31 | 1 <= from_page <= page, to_page <= page + 4, at most nine pages; with fewer results than a page, to_page 0 < from_page |
| Utils.DefaultToRegularKeeps | bntl/utils.py:18-21 | every key, order and leaf is kept and no defaultdict remains |
| Utils.DefaultToRegularIdempotent | bntl/utils.py:18-21 | converting twice is converting once |
| Utils.MaybeList | bntl/utils.py:108-114 | non-lists pass unchanged; a list fails iff empty; a one-item list gives its item; a longer one a string |
| Utils.MaybeListNames | bntl/utils.py:108-114 | n >= 2 names give "A, B & C": all names in order, n-2 commas, one " & " before the last |
| Utils.ReprTypeDispatch | bntl/utils.py:127-147 | seven reference types have a template, other types ValueError, no type KeyError; BOOK_2EDS iff a BOOK with secondary authors |
| Utils.ReplaceRis | bntl/utils.py:102-105 | the loop applies every tag replacement in order |
| Utils.ReplaceAllSequential | bntl/utils.py:102-105 | the replacements compose: the first part of the mapping, then the rest |
| Utils.IndexOf | bntl/utils.py:159 | the first occurrence at or after `from`, or None iff there is none |
| Utils.FormatBraceless | bntl/utils.py:159 | text without braces renders as itself |
| Utils.FormatField | bntl/utils.py:158-159 | a field renders as its keyword value, or "N/A" when absent, and formatting continues after it |
| Utils.RenderField | bntl/utils.py:154-159 | each template field renders as the document's maybe_list value, or "N/A" when missing or falsy |
| Utils.RenderListField | bntl/utils.py:154-159 | a list field renders as "A, B & C" |
| BntlModels.Coerce | bntl/models.py:12-51 | a coercion failure is a ValidationError |
| BntlModels.ValidateField | bntl/models.py:12-51 | a field failure is a ValidationError |
| BntlModels.Validate | bntl/models.py:12-51 | a validated model has exactly the declared keys; failures are ValidationErrors |
| BntlModels.ValidateOkIff | bntl/models.py:12-51 | validation succeeds iff every declared field validates |
| BntlModels.ValidateAt | bntl/models.py:12-51 | each declared field holds what it validated to |
| BntlModels.FieldConforms | bntl/models.py:12-51 | a validated value has its declared type |
| BntlModels.ValidateConforms | bntl/models.py:12-51 | a validated document has exactly the declared keys, each of its declared type |
| BntlModels.ValidateKeeps | bntl/models.py:12-51 | a present value already of its type is kept unchanged |
| BntlModels.AbsentTakesDefault | bntl/models.py:18-23 | an absent optional field takes its default ("" for year and end_year) |
| BntlModels.EmptyEntryValidates | bntl/models.py:12-45 | every entry field is optional: the empty document validates |
| BntlModels.EntryHasTitle | bntl/models.py:21 | a validated entry always has a title key |
| BntlModels.DefaultQueryParams | bntl/models.py:58-70 | every filter absent, every regex and case flag off |
| BntlModels.ParseSort | bntl/models.py:93-96 | accepted iff "ascending", "descending" or "" |
| BntlModels.PageParamsBounds | bntl/models.py:90-96 | accepted iff page >= 1, size <= 100 and both sorts are in the literal set |
| BntlModels.PageParamsDefaults | bntl/models.py:91-92 | defaults are page 1, size 10, unsorted; size -5 is accepted |
| BntlModels.MakeUploadStatus | bntl/models.py:108-111 | accepted iff progress is absent or in [0, 1] |
| BntlModels.MakeVectorParams | bntl/models.py:103-105 | accepted iff threshold is absent or in [0, 1); defaults limit 10, threshold 0 |
| VecModels.ValueInjective | vectorizer/models.py:8-14 | two statuses have the same text iff they are the same status |
| VecModels.StatusAttr | vectorizer/models.py:8-14 | `Status.<name>` succeeds iff the class declares the name; otherwise AttributeError |
| VecModels.AttrIn | vectorizer/models.py:8-14 | an attribute lookup finds a declared name or raises AttributeError |
| VecModels.EveryStatusNamed | vectorizer/models.py:8-14 | every status has an attribute name |
| VecModels.NoTimeoutStatus | vectorizer/models.py:8-14 | `Status.TIMEOUT` raises AttributeError |
| VecDb.NewSlotsMeans | vectorizer/db.py:46-48 | the slots are exactly indices 0 .. n-1 of the task, slot i holding text i |
| VecDb.FirstClash | vectorizer/db.py:46-48 | the first taken slot, with all before it free; None iff all are free |
| VecDb.CreateTaskDuplicate | vectorizer/db.py:30-44 | DuplicateKeyError iff the task id exists, and then nothing changes |
| VecDb.CreateTaskCreates | vectorizer/db.py:39-51 | a new task is Vectorizing with empty history; slot i holds text i; every other task and slot is kept |
| VecDb.CreateTaskEmptyTexts | vectorizer/db.py:44-48 | no texts: the task is inserted and then TypeError is raised |
| VecDb.CreateTaskWellKeyed | vectorizer/db.py:30-34 | creating a task keeps every document under its unique key |
| VecDb.FreshTaskHasNoSlots | vectorizer/db.py:30-48 | in a store where every slot's task exists, an unused task id has no slots, as `CreateTaskCreates` requires |
| VecDb.CreateTaskOwned | vectorizer/db.py:39-51 | creating a task keeps every slot's task existing |
| VecDb.GetTaskSpec | vectorizer/db.py:53-56 | the stored task iff known; otherwise AttributeError from `None.pop` |
| VecDb.ApplyVectorsMeans | vectorizer/db.py:69-73 | no slot created or removed; slot i of the task gets vector i; others kept |
| VecDb.UpdateUnknown | vectorizer/db.py:61 | an unknown task id raises and changes nothing |
| VecDb.UpdateAppendsHistory | vectorizer/db.py:61-67 | history grows by exactly the old current status; the new status becomes current; other tasks unchanged |
| VecDb.UpdateWritesVectors | vectorizer/db.py:69-73 | given vectors are written slot by slot; an empty list raises after the status change |
| VecDb.UpdateWellKeyed | vectorizer/db.py:58-74 | a status update keeps every document under its unique key |
| VecDb.UpdateOwned | vectorizer/db.py:58-74 | a status update keeps every slot's task existing |
| VecDb.InsertSlots | vectorizer/db.py:46-48 | the insertion loop stops at the first taken slot, adding those before it |
| VecDb.WriteVectors | vectorizer/db.py:69-73 | the update loop computes `ApplyVectors` |
| VecDb.TaskStore.constructor | vectorizer/db.py:18-28 | the store starts from the given, well-keyed collections |
| VecDb.TaskStore.CreateTask | vectorizer/db.py:39-51 | the new state and result are those of `CreateTaskSpec` |
| VecDb.TaskStore.UpdateTaskStatus | vectorizer/db.py:58-74 | the new state and result are those of `UpdateSpec` |
| VecDb.TaskStore.ClearUp | vectorizer/db.py:76-80 | both collections become empty, so keyed and with every slot's task existing |
| VecServer.KwargsDoc | vectorizer/server.py:55-66 | the status info holds exactly the keyword arguments given |
| VecServer.Worker | vectorizer/server.py:39-71 | the intended worker records at least one status |
| VecServer.FirstStop | vectorizer/server.py:39-68 | the first pass that does not retry, every earlier pass retrying |
| VecServer.StoreVectorsNotOom | vectorizer/server.py:50-54 | the missing-method error is not an out-of-memory error |
| VecServer.RetriesAsWrittenIsRetryable | vectorizer/server.py:53-54 | as written a pass retries iff the intended worker's would |
| VecServer.AsWrittenNeverDone | vectorizer/server.py:50-63 | as written no run ever sets Done or writes a vector |
| VecServer.AsWrittenEncodedFails | vectorizer/server.py:50-63 | as written a completed encoding records RuntimeError and stops |
| VecServer.AsWrittenOutOfAttempts | vectorizer/server.py:70-71 | as written, when all passes retry: five Retrying records counting 0 .. 4, then AttributeError on TIMEOUT |
| VecServer.WorkerLast | vectorizer/server.py:39-71 | the intended worker's last record is decided by the first non-retrying pass |
| VecServer.WorkerRetries | vectorizer/server.py:39-68 | every record but the last is Retrying, attempts counting up |
| VecServer.WorkerOneTerminal | vectorizer/server.py:39-71 | exactly one terminal status (Done, RuntimeError or OutOfAttempts), after at most five Retrying records |
| VecServer.WorkerDoneIffEncoded | vectorizer/server.py:45-52 | Done iff some pass encodes before attempts run out; the stored vectors are that pass's |
| VecServer.StatusesOf | vectorizer/db.py:61-67 | one status record per step, in order |
| VecServer.RecordHistory | vectorizer/db.py:61-67 | after a run the last step is current and the history gains the old status and every earlier step |
| VecServer.AsWrittenLeavesRetrying | vectorizer/server.py:70-71 | as written, when every pass retries, the task is left in Retrying for good |
| VecServer.RetriesPrefix | vectorizer/server.py:53-68 | the records of n retrying passes, n of them |
| VecServer.AsWrittenAfterRetries | vectorizer/server.py:39-68 | a run is the retrying prefix followed by the rest of the run |
| VecServer.AsWrittenStopsAt | vectorizer/server.py:39-63 | n Retrying records then RuntimeError, with no exception |
| VecServer.AsWrittenRunsOut | vectorizer/server.py:39-71 | MaxRetries Retrying records then the `Status.TIMEOUT` read |
| VecServer.Save | vectorizer/server.py:55-66 | one status update extends the recorded steps by one |
| VecServer.VectorizeTask | vectorizer/server.py:36-71 | the loop on the store makes the updates of `WorkerAsWritten` and returns its result |
| VecServer.GiveUp | vectorizer/server.py:70-71 | the statement after the loop raises on `Status.TIMEOUT` and records nothing |
| VecServer.BindCreateTask | vectorizer/server.py:78 | a call binds to `create_task(task_id, texts)` iff it passes two arguments |
| VecServer.VectorizeAsWrittenAlwaysFails | vectorizer/server.py:76-86 | as written every request answers 500 "Unknown ..." and creates and schedules nothing |
| VecServer.VectorizeOutcomes | vectorizer/server.py:77-82 | intended: the worker is scheduled iff the task was created (Vectorizing); a duplicate id answers 500 "Document already vectorized" with no change |
| VecServer.Vectorize | vectorizer/server.py:74-86 | the intended endpoint on the store computes `VectorizeSpec` |
| VecServer.TaskStatus | vectorizer/server.py:89-95 | intended: the stored task iff known, else 404 "Task not found" |
| VecServer.TaskStatusNeverNotFound | vectorizer/server.py:91-95 | as written an unknown id raises AttributeError instead of the 404; a known id returns the task |
| VecClient.GetRetryTime | vectorizer/client.py:43-50 | 10 s iff at most 1000 texts; 20 s iff 1001 to 10000; 40 s iff 10001 to 50000; 120 s iff more than 50000 |
| VecClient.RetryTimeMonotone | vectorizer/client.py:43-50 | more texts never mean a shorter wait |
| VecClient.RetryTime | vectorizer/client.py:54 | a non-zero given retry time is used, otherwise `get_retry_time` |
| VecClient.RetryTimePositive | vectorizer/client.py:54 | without a negative given time, the wait is positive |
| VecClient.SendAndPoll | vectorizer/client.py:53-81 | the method's retry time and outcome are those of `RetryTime` and `SendSpec` |
| VecClient.PollFromMeans | vectorizer/client.py:63-81 | every earlier reply was a non-final status within the timeout; fetched iff DONE; timed out past the timeout; stopped on an error status; raises iff a reply is not a task |
| VecClient.SendMeans | vectorizer/client.py:53-81 | skipped iff the submission carries "status_code"; a DONE submission fetches at once; otherwise as in PollFromMeans |
| VecClient.OtherStatusPollsAgain | vectorizer/client.py:72-77 | any other status within the timeout leads to one more poll |
| VecClient.ClockAdvances | vectorizer/client.py:76 | with sleeps between checks, the clock advances by at least the retry time per poll |
| VecClient.PollsBounded | vectorizer/client.py:65-77 | (polls - 1) sleeps fit within the timeout |
| VecClient.HttpErrorRaisesKeyError | vectorizer/client.py:58-63 | an HTTP error reply has no "status_code" key and raises KeyError on "current_status" |
| VecClient.IntendedSkipsHttpErrors | vectorizer/client.py:58-60 | with the intended "detail" check, a submission is skipped iff it was answered by an HTTP error, without polling; every other answer is handled as written |
| VecClient.AgainstServerAsWritten | vectorizer/client.py:58-63 | against the server as written every call raises KeyError before polling |
| VecClient.AgainstIntendedServer | vectorizer/client.py:62-77 | against the intended server a created task is polled at least once within the timeout |
| Common.SplitJoin | bntl/db.py:167 | joining the parts of a split restores the string |
| Common.SplitParts | bntl/db.py:167 | no part of a split contains the separator |
| Common.ReplaceIsSplitJoin | bntl/db_client.py:68 | `replace` is split then join |
| Common.ReplaceCharRemoves | bntl/db_client.py:68 | replacing a character by text without it removes every occurrence |
| Common.DecimalRoundTrip | bntl/db_client.py:62-63 | `int()` of a number's decimal digits gives the number back |
| Common.ParseIntChars | bntl/db_client.py:62 | an int-convertible string holds only whitespace, signs, digits and underscores |
| Common.ParseDigits | bntl/db_client.py:62 | a non-empty run of digits converts to its value |
| Common.PaddedInt | bntl/db.py:175 | `int(" 1987 ")` is 1987: surrounding whitespace is stripped |
| Common.UnderscoredInt | bntl/db.py:175 | `int("1_987")` is 1987: one `_` may separate digits |
| Common.MalformedInts | bntl/db.py:175 | "1__987" and "- 5" are refused, as `int()` refuses them |
| Common.TrimLeftSuffix | bntl/db.py:175 | lstrip drops exactly the leading whitespace |
| Common.TrimRightPrefix | bntl/db.py:175 | rstrip drops exactly the trailing whitespace |

## Left out

- MongoDB itself. Matching is modelled by an `Engine` parameter: equality, regex
  search with or without case. Range comparisons compare within one type only,
  as BSON does for int against str. The Mongo full-text index, aggregation
  (`$search`), `count_documents` and cursor sorting are not modelled. A sorted
  cursor is a parameter whose order is a precondition (`NewestFirst`).
- Clocks. `datetime.now` and `time.time` are parameters: a `now` function of the
  record index, one `now` per worker run, or a sequence of clock readings for
  the client.
- Sleeps, logging (`logger`, `AsyncLogger`, `maybe_await`) and `tqdm`. They have
  no effect on state.
- The HTTP layer. The replies of `post_task` and `get_task_status` are
  parameters (a sequence of replies). The content `get_vectors` returns is not
  modelled: a poll ends in `Fetched`. The model also has a `Cut` outcome for
  when the given replies or clock readings run out.
- The GPU, the model manager and `encode`. Each worker pass is an `Attempt`
  parameter: no GPU, an exception text, or the encoded vectors.
- RIS parsing, `ris2xml`, `xml2bib` and `ris2bib`. They are calls into other
  libraries and are passed to the upload model as a `Services` parameter.
  `TAG_KEY_MAPPING` (from rispy) is a parameter of `ReplaceRis`.
- `utils.is_atlas`. It is a boolean flag of `Db.Client`.
- Unique indexes. They are modelled as map keys in the vectorizer store and as
  key sets in `Store.Collection`.
- Not modelled: `get_session_queries`, `register_query`, `get_query`,
  `find_query`, `update_query`, `ping`, `close` and `__len__`. They are single
  pass-through calls to MongoDB with nothing to decide. The `/get-vectors`
  route is not part of this model.
- `update_upload_status` (bntl/db.py:111-115) is not modelled. It writes through
  `self.update_coll`, which the client never sets (bntl/db.py:39 sets
  `upload_coll`), so every call raises AttributeError.
- The `SearchQuery` import. bntl/db.py:13 imports `SearchQuery` from
  bntl.models, which does not define it, so bntl/db.py as shown cannot be
  imported. The model treats its functions as if the import succeeded.
- The vectorizer server's imports. vectorizer/server.py:13 imports
  `ModelManagerFE` and `ModelManagerStella`, which the model manager does not
  define, and vectorizer/server.py:15 imports `VectorizeParams`, which
  vectorizer/models.py does not define. So the server as shown cannot be
  imported. The model treats its handlers as if the imports succeeded.
- The `/query` route's parameters (app.py:45-56). They carry no annotations, so
  FastAPI passes every given value as a string. A flag given in the URL, even
  as "false", is then a truthy string, and a `limit` or `skip` given as a string
  makes pymongo raise TypeError. The model takes the flags as booleans and
  `limit` and `skip` as ints, so it covers the route as called with its
  defaults or through code, not these string forms.
- Common.ParseInt: `int()` on str is modelled for ASCII text. Python also
  strips non-ASCII whitespace (such as U+00A0 and U+2028), reads non-ASCII
  decimal digits and refuses literals over 4300 digits; none of these is
  modelled. ParseYearRange, YearClause, BuildQueryFails, FixYearIntegral and
  FixYearString inherit this.
- Coerce: pydantic's str-to-int is modelled by the same rules as `int()`.
  Pydantic also accepts a fraction of zeros such as "1987.0", which the model
  refuses.
- JoinKeywords: `"; ".join` of a dict joins its keys in insertion order. The
  model's dicts are unordered maps, so a dict of keywords is an error here.
- Batches.InsertDocuments: the loaders' `insert_documents` return None; the
  model returns `Ok(counter)`, the number of records examined, so the run's outcome
  can be stated.
- The upload's ingestion service. `insert` is a parameter giving the counts it
  reports to the progress callback and its outcome; an exception raised by the
  callback is taken to leave the ingestion call, as nothing in the loaders
  catches it.
- Floating point. Progress and thresholds are `real`; only their bounds matter.
- Pydantic's lax coercion is modelled for the value kinds the entry models use:
  str, int, lists of str, tag maps and datetimes. Other coercions (float to
  int, bytes) are not modelled.
- The loader's in-place edit. `fix_year` mutates the caller's dict. The model
  returns the edited dict, and `ExamineBatch` writes it back into the
  `documents` array, so the caller sees the same change.
- The `BNTLClient` import. bntl/ingest.py imports `BNTLClient` from bntl.db,
  which defines only `DBClient`, so the module as shown cannot be imported. The
  model treats `insert_documents` as if the import succeeded.
- Settings. `MAX_RETRIES` (5) and `BATCH_SIZE` (48) take their defaults from
  vectorizer/settings.py:25-27. `RETRY_DELAY` is a sleep and is not modelled.
- VecServer.Worker: the corrected worker stores the vectors through
  `update_task_status(..., vectors=...)`. `doc_ids` are not stored, because no
  method in vectorizer/db.py takes them.
- Batches.IngestionStoresStamped: it is proved for the loader with
  bntl/db_client.py's `fix_year` in place of the missing `utils.fix_year`, and
  with `MissingFieldException` standing for the undefined
  `utils.MissingFieldException`.
- Upload.ProcessOutcomes, Upload.IngestOutcomes and Upload.VectorizeOutcomes:
  `Services.vectorize` stands for the client call bntl/upload.py:124-125
  evidently intends. vectorizer/client.py defines no `vectorize`, so as written
  that call raises AttributeError; `AsWrittenServices` and the lemmas about it
  model that case (see Findings).
- AppQuery.Query and AppQuery.QueryResults: they state what the handler returns.
  The route declares the response model `List[DBEntryModel]` (app.py:56), which
  requires the field aliased `_id` (bntl/db_client.py:49-50), and the handler
  pops `_id` (app.py:104-105). FastAPI's response validation, not modelled
  here, would therefore turn every non-empty result into a 500 error; only an
  empty list reaches the caller.
- Ingest.Validate: `utils.MissingFieldException` is not defined in
  bntl/utils.py, so in the source a falsy title raises AttributeError. The
  model raises `MissingFieldException`, the exception evidently intended.
- Pagination.EchoesRequest: `ResponseSchema.from_orm` is the identity. The
  `transform` function stands for the whole per-item conversion.
- The browser scripts (static/js), test.py and _reset.py are not part of this
  model.

## Findings

| source | as written | input that shows it | evidently intended | confidence | as-written member | corrected member |
|---|---|---|---|---|---|---|
| bntl/ingest.py:55-62 | calls `utils.fix_year`, which bntl/utils.py does not define; handling that AttributeError evaluates `utils.YearFormatException`, also undefined, which raises AttributeError again | any non-empty list of records with batch_size > 0 | the `fix_year` of bntl/db_client.py, dropping records with a bad year | not executed | Batches.IngestionAsWrittenFails | Batches.IngestionStoresStamped |
| vectorizer/server.py:71 | sets `Status.TIMEOUT`, which `Status` does not declare | five passes without a GPU | record `Status.OUTOFATTEMPTS` | not executed | VecServer.AsWrittenOutOfAttempts | VecServer.WorkerOneTerminal |
| vectorizer/server.py:50 | calls `db_client.store_vectors`, which vectorizer/db.py does not define | a pass whose encoding completes | write the vectors and record DONE | not executed | VecServer.AsWrittenNeverDone | VecServer.WorkerDoneIffEncoded |
| vectorizer/server.py:78 | calls `create_task(task_id, texts, doc_ids)`, which takes two arguments | any `/vectorize` request | `create_task(task_id, texts)` | not executed | VecServer.VectorizeAsWrittenAlwaysFails | VecServer.VectorizeOutcomes |
| vectorizer/server.py:91-95 | `get_task` raises on an unknown id before the 404 branch | `/check-status/x` with no task x | answer 404 "Task not found" | not executed | VecServer.TaskStatusNeverNotFound | VecServer.TaskStatus |
| app.py:77-79 | the single-year clause compares the unconverted string with `end_year < year` | year "1990" over entries stored with int years | `int(year)` and `end_year <= year + 1`, as in bntl/db.py | not executed | AppQuery.SingleYearSearchFindsNothing | AppQuery.CorrectedAgreesWithQueries |
| bntl/upload.py:124-125 | calls `client.vectorize`, which vectorizer/client.py does not define; the AttributeError is caught and the `finally` reports VECTORIZINGERROR | any upload whose records are stored and fetched | call the vectorizer client and index the vectors it returns | not executed | Upload.ProcessAsWrittenNeverDone | Upload.ProcessOutcomes |
| vectorizer/client.py:58 | checks for a "status_code" key, which FastAPI's error body `{"detail": ...}` never has, so an error answer reaches the loop and raises KeyError on "current_status" | a submission answered 404 or 500 | check for "detail" and return without polling | not executed | VecClient.HttpErrorRaisesKeyError | VecClient.IntendedSkipsHttpErrors |
