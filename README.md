# DEXA AI core, modelled in Dafny

DEXA AI is a data-analysis assistant. A user uploads a dataset or picks a
predefined one (titanic, iris, gapminder) and asks a question in plain
language. A chat completion model writes pandas/matplotlib code and an
explanation. The backend checks the code against a blacklist before running it.
The front end keeps the chat transcript, the upload form and the canned
offline answers.

This project models the deterministic parts of that system, one Dafny module per source file:

- `UploadDataset` (`upload-dataset` edge function): CSV column, row-count and sample extraction, and the request handler's validation order and file-type branch.
- `CodeExecutor`: the syntax-tree blacklist visitor (a class whose `errors` field grows during the walk), `check_code_safety` and the guard of `safe_execute`.
- `LlmClient`: the fenced-code extractor `_extract_code`, the no-API-key guards, and the keyword routers of the two mocks.
- `PromptEngineer`: the zero-shot, few-shot (a loop that builds the prompt) and chart-specialised prompt builders, and the examples table.
- `DataManager`: a class over an abstract file store, with the id lookup order, the load cache, dataset listing, upload and column renaming.
- `UseChatMessages`: the chat-message store hook, as a class over a table of rows, a clock and a log of outside calls.
- `ChatPanel`: the message list with its "Thinking..." placeholder, and the example queries.
- `DatasetUploader`: file validation, default naming, and the simulated progress counter of the upload form.
- `DataUtils`: the offline sample queries, code router and image router.
- `Analyze` (`analyze` edge function): prompts, image choice, and the order of steps and errors of the handler.
- `AiChat` (`ai-chat` edge function): the prompt template, request validation and the content fallback.
- `Navigation`: the avatar initials.
- `ThemeToggle`: the light/dark switch.

`Common` holds `Option`/`Result`, JavaScript truthiness of optional strings, and the first-match search that both image routers use.
`Text` holds the string operations the source uses: JavaScript/Python split and join, JavaScript's `trim` and Python's `strip` (they differ on U+001C to U+001F), ASCII case mapping, and substring search.

Outside inputs become parameters. These are database and storage outcomes, chat completion replies, the session, clocks and timer ticks, ids, and `Number()`'s verdict on a string. Handlers also return the list of outside calls they made, in order. That makes "rejected before any write" and "the explanation is requested only after the code" statable.

## Model

| member | source | states |
|---|---|---|
| Common.FirstShown | src/lib/data-utils.ts:231-262 | the position of the first image, in the order the `if … else if` tests are tried, whose test holds: its test holds and every earlier one fails (the same chain as supabase/functions/analyze/index.ts:124-142) |
| Common.FirstShownAgrees | src/lib/data-utils.ts:231-262 | two tests that accept the same images pick the same first image |
| Text.Trim | supabase/functions/upload-dataset/index.ts:9 | the result of JavaScript's `trim()` is empty exactly when the text is blank, and otherwise neither starts nor ends with whitespace |
| Text.TrimSlice | supabase/functions/upload-dataset/index.ts:9 | the trimmed text is the slice of the original that follows the leading whitespace |
| Text.TrimMargins | supabase/functions/upload-dataset/index.ts:9 | trimming removes only whitespace, and only at the two ends |
| Text.TrimUnchanged | supabase/functions/upload-dataset/index.ts:9 | a text that neither starts nor ends with whitespace is its own trim |
| Text.Strip | src/backend/llm_client.py:77-80 | the result of Python's `strip()` is empty exactly when every character is Python whitespace (which includes U+001C to U+001F), and otherwise neither starts nor ends with it |
| Text.StripSlice | src/backend/llm_client.py:77-80 | the stripped text is the slice after the leading Python whitespace, and only Python whitespace follows it |
| Text.StripMatchesTrim | src/backend/llm_client.py:77-80 | on text without U+001C to U+001F, Python's `strip()` and JavaScript's `trim()` give the same text |
| Text.StripRemovesSeparators | src/backend/llm_client.py:77-80 | `strip()` removes a lone U+001F that `trim()` keeps |
| Text.Split | supabase/functions/upload-dataset/index.ts:8 | `split(sep)` gives at least one piece, the first piece is the text before the first separator, and no piece contains the separator |
| Text.JoinSplit | supabase/functions/upload-dataset/index.ts:8 | joining the pieces of a split with the separator gives back the original text |
| Text.SplitJoin | src/components/Navigation.tsx:36 | splitting the join of separator-free pieces gives back exactly those pieces |
| Text.SplitCount | src/components/Navigation.tsx:36 | a split has one more piece than the text has separators |
| Text.AfterLast | src/components/DatasetUploader.tsx:41 | `split('.').pop()` is the separator-free suffix after the last separator, or the whole text when there is none |
| Text.Lower | src/backend/llm_client.py:87 | `lower()` maps each character to its ASCII lower case and keeps the length |
| Text.Upper | src/components/Navigation.tsx:38 | `toUpperCase()` maps each character to its ASCII upper case and keeps the length |
| Text.LowerIdempotent | src/lib/data-utils.ts:103 | lowercasing twice is lowercasing once, so keyword tests on a lowercased query are case-blind |
| Text.ContainsIff | src/backend/llm_client.py:87 | `word in text` holds exactly when the word occurs at some position |
| UploadDataset.CleanField | supabase/functions/upload-dataset/index.ts:9 | a cleaned field (trimmed, every `"` deleted) contains no `"` and is no longer than the raw field |
| UploadDataset.Fields | supabase/functions/upload-dataset/index.ts:9 | every comma splits a field, so a line yields one field per comma plus one, none of which contains `"` |
| UploadDataset.ExtractColumns | supabase/functions/upload-dataset/index.ts:7-10 | the columns are the cleaned fields of the raw text before the first newline |
| UploadDataset.NonBlank | supabase/functions/upload-dataset/index.ts:13 | the blank-line filter keeps no blank line and is empty exactly when every line is blank |
| UploadDataset.NonBlankAppend | supabase/functions/upload-dataset/index.ts:13 | the filter keeps the lines in order: a line added at the end is added to the result exactly when it is not blank |
| UploadDataset.NonBlankIndicesAppend | supabase/functions/upload-dataset/index.ts:13 | a line added at the end adds its position to the non-blank positions exactly when it is not blank |
| UploadDataset.NonBlankCount | supabase/functions/upload-dataset/index.ts:13 | the filter keeps one line per non-blank position |
| UploadDataset.CountRows | supabase/functions/upload-dataset/index.ts:12-14 | the row count is at least -1, and is -1 exactly when the content is blank |
| UploadDataset.CountRowsValue | supabase/functions/upload-dataset/index.ts:12-14 | for any content, the row count is the number of lines that are not blank, minus one |
| UploadDataset.Coerce | supabase/functions/upload-dataset/index.ts:30-31 | a value becomes a number exactly when it is non-empty and parses as a number; its text is kept either way |
| UploadDataset.RowPrefixKeys | supabase/functions/upload-dataset/index.ts:27-32 | after the first n headers, the row object's keys are exactly those headers |
| UploadDataset.RowPrefixValues | supabase/functions/upload-dataset/index.ts:27-32 | the value under a header is the coerced value at that header's last position, or the coerced "" when the row is too short |
| UploadDataset.RowObjectSpec | supabase/functions/upload-dataset/index.ts:23-35 | a row object has exactly one key per distinct header, and a repeated header keeps its last position's value |
| UploadDataset.BuildRow | supabase/functions/upload-dataset/index.ts:25-34 | the `forEach` loop builds the row object the specification describes: keys are the headers, with last-position values |
| UploadDataset.RowObjects | supabase/functions/upload-dataset/index.ts:23-35 | one row object per sample line, in order |
| UploadDataset.ExtractSample | supabase/functions/upload-dataset/index.ts:16-36 | the sample is empty with at most one non-blank line, else has min(numRows, lines-1) rows, each built from the header line and the line right after the previous one |
| UploadDataset.ColumnsFromFirstLine | supabase/functions/upload-dataset/index.ts:8 | only the text before the first newline determines the columns |
| UploadDataset.SingleLineColumns | supabase/functions/upload-dataset/index.ts:8 | content without a newline is its own header line |
| UploadDataset.FieldsOfPair | supabase/functions/upload-dataset/index.ts:9 | two comma-free pieces joined by a comma give their two cleaned fields |
| UploadDataset.CleanOpenQuote | supabase/functions/upload-dataset/index.ts:9 | an opening quote is deleted |
| UploadDataset.CleanCloseQuote | supabase/functions/upload-dataset/index.ts:9 | a closing quote is deleted |
| UploadDataset.QuotedCommaSplits | supabase/functions/upload-dataset/index.ts:9 | a quoted field containing a comma yields two columns, unlike RFC 4180 |
| UploadDataset.NonBlankAll | supabase/functions/upload-dataset/index.ts:13 | the filter keeps a list of non-blank lines unchanged |
| UploadDataset.CsvOfLines | supabase/functions/upload-dataset/index.ts:12-21 | for newline-joined non-blank lines, the row count is lines-1 and the sample is the first min(numRows, lines-1) data lines keyed by the header |
| UploadDataset.HeaderSourcesDiffer | supabase/functions/upload-dataset/index.ts:7-21 | with a leading empty line the columns are [""] while the sample is keyed by the real header |
| UploadDataset.EmptyFirstLine | supabase/functions/upload-dataset/index.ts:8 | content starting with a newline has the single column "" |
| UploadDataset.LeadingEmptyLine | supabase/functions/upload-dataset/index.ts:17 | the blank-line filter drops a leading empty line |
| UploadDataset.FileExtension | supabase/functions/upload-dataset/index.ts:95 | the extension is the lowercased suffix that holds no '.' and is preceded by a '.' or is the whole name, as `split('.').pop()` gives it |
| UploadDataset.RecordFor | supabase/functions/upload-dataset/index.ts:99-151 | a "csv" file gets the extracted columns, row count and sample, any other type the fixed placeholders; `columns_count` is always the number of columns |
| UploadDataset.HandleUpload | supabase/functions/upload-dataset/index.ts:39-174 | preflight is answered 200; otherwise a missing or empty Authorization header, then failed auth (401), then an unreadable form (500 "Server error: "), then no file, then empty name (400), all before any write; then the file is stored under user/stamp-name, a storage error gives 500 and no insert, an insert error gives 500 "Failed to save dataset metadata: " after both calls, and success returns the inserted record |
| CodeExecutor.FirstComponent | src/backend/code_executor.py:71 | the first '.'-component of a module name: the text before the first '.', containing no '.' |
| CodeExecutor.ImportErrors | src/backend/code_executor.py:68-73 | an import statement gives at most one error per alias |
| CodeExecutor.ImportFromErrors | src/backend/code_executor.py:75-79 | a from-import gives at most one error |
| CodeExecutor.CallErrors | src/backend/code_executor.py:81-90 | a call gives at most two errors (module receiver and function name) |
| CodeExecutor.Errors | src/backend/code_executor.py:68-90 | a node's own errors come first in its error list, before those of its children |
| CodeExecutor.CodeAnalyzer.constructor | src/backend/code_executor.py:55-66 | a fresh analyzer has no errors and the source's two blacklists |
| CodeExecutor.CodeAnalyzer.Visit | src/backend/code_executor.py:68-90 | visiting a tree appends exactly that tree's errors, in traversal order, to `errors` |
| CodeExecutor.CodeAnalyzer.VisitImport | src/backend/code_executor.py:68-73 | one error per alias whose first component is blacklisted, then the children |
| CodeExecutor.CodeAnalyzer.VisitImportFrom | src/backend/code_executor.py:75-79 | one error when the module's first component is blacklisted, then the children |
| CodeExecutor.CodeAnalyzer.VisitCall | src/backend/code_executor.py:81-90 | bare-name and attribute checks, then the children |
| CodeExecutor.CodeAnalyzer.GenericVisit | src/backend/code_executor.py:73-90 | visiting the children appends their errors in order |
| CodeExecutor.CodeAnalyzer.VisitEach | src/backend/code_executor.py:73-90 | visiting a list of nodes appends their errors in order |
| CodeExecutor.SafetyReport | src/backend/code_executor.py:110-114 | the safety report starts with "Error: Safety issues detected:\n" |
| CodeExecutor.SafetyIssues | src/backend/code_executor.py:97-105 | a syntax error gives exactly one entry starting "Syntax error: "; a parsed tree gives no error exactly when it is clean |
| CodeExecutor.CheckCodeSafety | src/backend/code_executor.py:97-105 | running a fresh analyzer over the tree gives the issues `SafetyIssues` describes |
| CodeExecutor.SafeExecute | src/backend/code_executor.py:107-136 | code runs exactly when it has no safety issue; every failure result starts with "Error:" |
| CodeExecutor.NodeErrorsIff | src/backend/code_executor.py:68-90 | a node reports an error of its own exactly when it is offending |
| CodeExecutor.CleanIff | src/backend/code_executor.py:68-90 | a tree has no error exactly when no node in it is offending |
| CodeExecutor.AllCleanIff | src/backend/code_executor.py:68-90 | a list of trees has no error exactly when every tree is clean |
| CodeExecutor.ImportErrorsAppend | src/backend/code_executor.py:70-72 | the alias errors of two alias lists concatenate |
| CodeExecutor.ImportErrorsIff | src/backend/code_executor.py:68-73 | an import is error-free exactly when no alias has a blacklisted first component |
| CodeExecutor.FirstComponentOf | src/backend/code_executor.py:71 | a dotted name's first component is its head |
| CodeExecutor.DottedImportFlagged | src/backend/code_executor.py:68-73 | "os.path" is flagged through its first component "os" |
| CodeExecutor.PrefixNameNotFlagged | src/backend/code_executor.py:68-73 | "osx" is not flagged: only whole first components are compared |
| CodeExecutor.RelativeImportNotFlagged | src/backend/code_executor.py:77 | a relative import without a module name is never flagged |
| CodeExecutor.OsOpenTwoErrors | src/backend/code_executor.py:85-89 | `os.open(...)` gives both the module error and the function error |
| CodeExecutor.NestedCallReported | src/backend/code_executor.py:90 | a blacklisted call nested in an argument is reported after the outer call's errors |
| LlmClient.NextFence | src/backend/llm_client.py:72 | the search for a closing fence gives a fence at or after the start, or -1 |
| LlmClient.NextFenceFirst | src/backend/llm_client.py:72 | that fence is the first one: no fence lies between the start and it, and none at all when the result is -1 |
| LlmClient.FenceIsOccurrence | src/backend/llm_client.py:72 | a fence position is exactly an occurrence of three backquotes |
| LlmClient.TagIsOccurrence | src/backend/llm_client.py:72 | a tag position is exactly an occurrence of "python" |
| LlmClient.MatchAt | src/backend/llm_client.py:72-73 | a fence match at a position starts with a fence there and ends after a closing fence |
| LlmClient.Closing | src/backend/llm_client.py:72 | the lazy `.*?` captures the text up to the first closing fence |
| LlmClient.Stripped | src/backend/llm_client.py:77 | each captured block is stripped with Python's `strip()`, in order |
| LlmClient.ExtractCode | src/backend/llm_client.py:69-80 | text without any fence is returned with Python's `strip()` applied |
| LlmClient.NoBackquoteNoMatch | src/backend/llm_client.py:73 | text without a backquote has no match |
| LlmClient.NextFenceAfter | src/backend/llm_client.py:72 | after a stretch without backquotes, the next fence is the one right after it |
| LlmClient.PlainBlock | src/backend/llm_client.py:72 | a fenced block without a backquote or "python" tag is matched from just after the opening fence to the closing fence, whatever follows |
| LlmClient.TaggedBlock | src/backend/llm_client.py:72 | a "python"-tagged block is matched from just after the tag to the closing fence, so the tag is not captured |
| LlmClient.MatchAtSuffix | src/backend/llm_client.py:72 | a match in a suffix of the text is the same match, shifted, in the whole text |
| LlmClient.FindAllBound | src/backend/llm_client.py:73 | each block `findall` returns uses up at least its two fences: k blocks need 6k characters after the start position |
| LlmClient.FindAllSuffix | src/backend/llm_client.py:73 | `findall` from a position sees only the text from there on: earlier text cannot change later matches |
| LlmClient.FencedRoundTrip | src/backend/llm_client.py:72-73 | fencing a list of plain blocks and scanning gives the blocks back, in order |
| LlmClient.FirstBlock | src/backend/llm_client.py:73 | the scan takes a leading block, then continues after its closing fence |
| LlmClient.MatchesAfterProse | src/backend/llm_client.py:73 | prose around the blocks is skipped |
| LlmClient.ExtractFromProse | src/backend/llm_client.py:69-77 | blocks inside prose are returned stripped and joined by "\n" |
| LlmClient.DanglingFence | src/backend/llm_client.py:72 | an unclosed fence matches nothing |
| LlmClient.UnpairedFenceIgnored | src/backend/llm_client.py:72-77 | a trailing unclosed fence does not change the extracted code |
| LlmClient.TaggedReply | src/backend/llm_client.py:72-77 | a single "python"-tagged block gives its body, stripped with Python's `strip()` |
| LlmClient.GenerateCode | src/backend/llm_client.py:19-42 | without a key, None and no API call; with a reply, the extracted code; a failed call gives None |
| LlmClient.GenerateExplanation | src/backend/llm_client.py:44-67 | without a key, the fixed notice and no API call; otherwise the reply, or "Could not generate explanation: " and the error |
| LlmClient.MockBranchOf | src/backend/llm_client.py:87-99 | the age-histogram branch exactly when the lowercased prompt has "histogram" and "age"; survival-by-gender exactly when it does not and has "survival" and "gender" |
| LlmClient.MockGenerateCode | src/backend/llm_client.py:82-129 | the canned program is the one of the branch `MockBranchOf` chooses for the prompt: age histogram, then survival by gender, then the generic program |
| LlmClient.MockGenerateExplanation | src/backend/llm_client.py:131-168 | the canned explanation is the one of the branch `MockBranchOf` chooses, the same branch as the program's |
| LlmClient.MocksAgree | src/backend/llm_client.py:82-168 | both mocks choose by the same branch |
| LlmClient.HistogramWins | src/backend/llm_client.py:87-99 | the histogram test wins over the survival test |
| PromptEngineer.Lookup | src/backend/prompt_engineer.py:98 | a key is found exactly when some table entry has it, and the found value is that entry's |
| PromptEngineer.ZeroShotPrompt | src/backend/prompt_engineer.py:80-89 | the zero-shot prompt starts with the template head and the query, and ends with the columns joined by ", " and the template tail |
| PromptEngineer.SelectExamples | src/backend/prompt_engineer.py:96-101 | a truthy known dataset type selects its own examples; otherwise the first set, or none for an empty table |
| PromptEngineer.PromptEngineer.constructor | src/backend/prompt_engineer.py:9-78 | the engineer holds the titanic-then-iris examples table |
| PromptEngineer.PromptEngineer.FewShotPrompt | src/backend/prompt_engineer.py:91-111 | the loop builds the zero-shot prompt, then the header, each numbered example and the closing line; it starts with the zero-shot prompt and ends with the closing line when there are examples |
| PromptEngineer.SpecializedPrompt | src/backend/prompt_engineer.py:113-155 | a missing or unknown chart type gives the zero-shot prompt; a known one, compared in lower case, appends its instructions |
| PromptEngineer.ExamplesAlwaysSelected | src/backend/prompt_engineer.py:96-101 | with a non-empty table of non-empty sets, some examples are always selected |
| PromptEngineer.ExampleTableShape | src/backend/prompt_engineer.py:14-78 | the table has titanic (two examples) then iris (one example) |
| PromptEngineer.FallbackToFirst | src/backend/prompt_engineer.py:99-101 | an unknown or missing dataset type falls back to the first set |
| PromptEngineer.KnownTypeUsesOwnExamples | src/backend/prompt_engineer.py:97-98 | a known dataset type gets its own set |
| PromptEngineer.ExampleTextsSplit | src/backend/prompt_engineer.py:105-106 | the i-th example text follows the texts of the examples before it |
| PromptEngineer.FewShotShape | src/backend/prompt_engineer.py:91-111 | the few-shot prompt extends the zero-shot prompt and, with examples, ends with the closing line |
| PromptEngineer.EveryExampleIncluded | src/backend/prompt_engineer.py:104-106 | every selected example appears, with its number, in the few-shot prompt |
| PromptEngineer.ChartTypeCaseInsensitive | src/backend/prompt_engineer.py:152-153 | the chart type is compared in lower case |
| PromptEngineer.SpecializedExtendsBase | src/backend/prompt_engineer.py:148-155 | the specialised prompt always extends the zero-shot prompt |
| DataManager.CsvName | src/backend/data_manager.py:107 | a dataset's file name is its id followed by ".csv" |
| DataManager.IdOf | src/backend/data_manager.py:144-145 | stripping ".csv" inverts the file naming |
| DataManager.Source | src/backend/data_manager.py:100-125 | a predefined id is read from the datasets directory, whatever the uploads hold; any other id only if its upload exists |
| DataManager.NormalizeColumn | src/backend/data_manager.py:84 | each character is lowercased and spaces become '_', keeping the length |
| DataManager.Preprocess | src/backend/data_manager.py:78-98 | every column is renamed in place; the column types and the rows are kept |
| DataManager.PredefinedEntries | src/backend/data_manager.py:130-140 | one predefined entry per predefined id, in order |
| DataManager.DataManager.constructor | src/backend/data_manager.py:23-45 | the registry starts with the three predefined ids, the given stats and an empty cache |
| DataManager.DataManager.GetDataset | src/backend/data_manager.py:100-125 | an unknown id gives None; a cached id gives the cached table; otherwise the file is read and a successful read is cached |
| DataManager.DataManager.ListDatasets | src/backend/data_manager.py:127-160 | the predefined entries come first, then one entry per listed upload file in directory order; an entry is predefined exactly when it is among the first three; when `names` lists the uploads directory, every readable ".csv" upload with a non-predefined id has its entry and no id is listed twice |
| DataManager.DataManager.UploadDataset | src/backend/data_manager.py:187-215 | success exactly when the file parses and `preprocess` completes; the id is the uuid's first 8 characters, the stored table is preprocessed and the cache entry dropped; on failure the file is removed |
| DataManager.UploadEntriesNotPredefined | src/backend/data_manager.py:146-153 | no upload entry is marked predefined or uses a predefined id |
| DataManager.ListedFileHasEntry | src/backend/data_manager.py:143-157 | every name of the directory listing that is a readable ".csv" upload with a non-predefined id gets an entry |
| DataManager.ListedUploadHasEntry | src/backend/data_manager.py:143-157 | when the listing holds each upload file, every readable ".csv" upload with a non-predefined id gets an entry |
| DataManager.UploadIdsDistinct | src/backend/data_manager.py:143-157 | a listing without repeated file names gives upload entries with distinct ids |
| DataManager.EntryHasListedFile | src/backend/data_manager.py:143-157 | every upload entry comes from a listed file, and its id can be fetched |
| DataManager.PredefinedShadowsUploads | src/backend/data_manager.py:103-115 | uploads never change what a predefined id resolves to |
| DataManager.UploadIdNotPredefined | src/backend/data_manager.py:193 | an upload id is never a predefined id |
| DataManager.UploadThenGet | src/backend/data_manager.py:187-215 | after an upload, the new id resolves to the preprocessed table and is not cached |
| DataManager.NormalizeIdempotent | src/backend/data_manager.py:84 | renaming twice is renaming once |
| DataManager.NormalizeMerges | src/backend/data_manager.py:84 | "Home Port" and "home_port" collide after renaming |
| DataManager.PreprocessesIff | src/backend/data_manager.py:84-96 | `preprocess` completes exactly when no number or text column shares its renamed label with another column |
| DataManager.DistinctLabelsPreprocess | src/backend/data_manager.py:84-96 | labels that stay distinct after renaming never make `preprocess` raise |
| DataManager.MergedColumnsFail | src/backend/data_manager.py:84-96 | a "Home Port" text column next to a "home_port" number column makes `preprocess`, and so the upload, fail |
| DataManager.MergedBooleansPass | src/backend/data_manager.py:84-96 | two boolean columns that merge are never filled, so `preprocess` completes |
| UseChatMessages.AiReply | src/hooks/useChatMessages.ts:63-79 | an error reply, a thrown call and a missing content each give their placeholder; returned content is used as is |
| UseChatMessages.ChatRows | src/hooks/useChatMessages.ts:14-18 | the fetched rows are a selection of the table |
| UseChatMessages.ChatRowsMembers | src/hooks/useChatMessages.ts:14-17 | a row is fetched exactly when it is in the table and belongs to the chat |
| UseChatMessages.ChatRowsAscending | src/hooks/useChatMessages.ts:18 | fetched rows are in ascending creation order |
| UseChatMessages.AppendAscending | src/hooks/useChatMessages.ts:29-34 | a row stamped no earlier than the others keeps the table ascending |
| UseChatMessages.ChatMessages.constructor | src/hooks/useChatMessages.ts:7-8 | the hook starts over the given chat, table and clock with no calls logged |
| UseChatMessages.InsertByTimeSorts | src/hooks/useChatMessages.ts:18 | inserting a row into an ascending list keeps it ascending and adds exactly that row |
| UseChatMessages.SortByTimeSorts | src/hooks/useChatMessages.ts:18 | `.order("created_at")` gives an ascending permutation of the selected rows |
| UseChatMessages.SortByTimeKeepsAscending | src/hooks/useChatMessages.ts:18 | the stable sort leaves rows already in `created_at` order as they are |
| UseChatMessages.ChatMessages.Fetch | src/hooks/useChatMessages.ts:10-23 | no chat gives []; a database error is returned; otherwise an ascending permutation of the chat's rows, which is exactly the chat's rows in table order, each once |
| UseChatMessages.ChatMessages.SendMessage | src/hooks/useChatMessages.ts:26-46 | no chat or a failed insert changes nothing; otherwise one row is appended and the chat's cache is invalidated |
| UseChatMessages.ChatMessages.SendUserMessageWithAIReply | src/hooks/useChatMessages.ts:49-86 | the user's row, then the AI call, then the assistant's row with the reply or a placeholder; a failed first insert stops before the AI call |
| UseChatMessages.NewRowsListedLast | src/hooks/useChatMessages.ts:14-18 | rows added to a chat are fetched after the existing ones, in order |
| UseChatMessages.PlaceholdersDistinct | src/hooks/useChatMessages.ts:71-79 | the three failure placeholders differ |
| UseChatMessages.EmptyContentKept | src/hooks/useChatMessages.ts:75 | an empty reply content is stored as "" |
| ChatPanel.Submitted | src/components/ChatPanel.tsx:71-86 | a submit appends the user's message and then the placeholder |
| ChatPanel.Completed | src/components/ChatPanel.tsx:101-115 | a trailing placeholder is replaced by the completion message; any other list is unchanged |
| ChatPanel.ExampleQueries | src/components/ChatPanel.tsx:43-64 | three queries per dataset, the titanic and iris ones first, the defaults otherwise |
| ChatPanel.ChatPanel.constructor | src/components/ChatPanel.tsx:26-32 | the panel starts with one assistant greeting |
| ChatPanel.ChatPanel.Type | src/components/ChatPanel.tsx:191 | typing sets the input |
| ChatPanel.ChatPanel.HandleSubmit | src/components/ChatPanel.tsx:66-98 | blank input or a pending query changes nothing; otherwise the messages are appended, the query is handed over and the input cleared |
| ChatPanel.ChatPanel.ReplaceThinking | src/components/ChatPanel.tsx:101-115 | when loading ends the placeholder is replaced |
| ChatPanel.SubmitThenComplete | src/components/ChatPanel.tsx:77-111 | a submit and the effect leave the user's message followed by one completion message |
| ChatPanel.CompletedStable | src/components/ChatPanel.tsx:102 | running the effect again changes nothing |
| DatasetUploader.Extension | src/components/DatasetUploader.tsx:41 | the extension is the lowercased suffix that holds no '.' and is preceded by a '.' or is the whole name, as `split('.').pop()` gives it |
| DatasetUploader.ExtensionAfterDot | src/components/DatasetUploader.tsx:41 | for every name ending in '.' followed by dot-free text, the extension is that text lowercased |
| DatasetUploader.DefaultName | src/components/DatasetUploader.tsx:52-55 | the default name is the file name, or the part before a last '.' followed by a non-empty extension |
| DatasetUploader.DefaultNameIff | src/components/DatasetUploader.tsx:54 | the name is shortened exactly when some '.' is followed by a non-empty, '.'- and '/'-free extension |
| DatasetUploader.ErrorMessage | src/components/DatasetUploader.tsx:101-112 | the JSON error wins, then the response text, and the message is never empty |
| DatasetUploader.TickValues | src/components/DatasetUploader.tsx:80-88 | one progress value per tick |
| DatasetUploader.TickValuesBounded | src/components/DatasetUploader.tsx:80-88 | the interval's progress values rise and stay between 20 and 90 |
| DatasetUploader.DatasetUploader.constructor | src/components/DatasetUploader.tsx:17-24 | the form starts closed, empty, at progress 0 and with no interval running |
| DatasetUploader.DatasetUploader.HandleFileChange | src/components/DatasetUploader.tsx:26-57 | an oversize file, then an unaccepted extension, gives its toast and keeps the state; an accepted file is taken and names the dataset if the name is empty |
| DatasetUploader.DatasetUploader.HandleSubmit | src/components/DatasetUploader.tsx:59-143 | no file does nothing; no session fails at progress 0; otherwise one request, progress 10 then the ticks, and 100 on success or 0 and the error toast on failure; the interval is cleared when `fetch` returns, but after a rejected `fetch` it keeps running unless it already stopped at 90 |
| DatasetUploader.DatasetUploader.RunInterval | src/components/DatasetUploader.tsx:80-88 | each tick adds 10 until a tick finds 90, which clears the interval |
| DatasetUploader.DatasetUploader.Tick | src/components/DatasetUploader.tsx:80-88 | a tick of a running interval adds 10, or holds 90 and clears the interval; a cleared interval does nothing |
| DatasetUploader.DatasetUploader.SetProgress | src/components/DatasetUploader.tsx:64 | the progress is set and logged |
| DatasetUploader.DatasetUploader.Fail | src/components/DatasetUploader.tsx:133-142 | a failure stops uploading, resets progress and toasts the message |
| DatasetUploader.DatasetUploader.ResetAfterUpload | src/components/DatasetUploader.tsx:119-127 | after success the form is cleared and closed and the parent notified |
| DatasetUploader.FailureDescription | src/components/DatasetUploader.tsx:137 | the toast falls back to a fixed text for an empty message |
| DatasetUploader.DotFileDefaultsToEmpty | src/components/DatasetUploader.tsx:52-55 | ".csv" is accepted and names the dataset "" |
| DatasetUploader.TrailingDotKept | src/components/DatasetUploader.tsx:54 | "data." keeps its name |
| DatasetUploader.LastExtensionRemoved | src/components/DatasetUploader.tsx:54 | only the last extension is removed |
| DatasetUploader.RejectedFetchKeepsTicking | src/components/DatasetUploader.tsx:80-99 | after a rejected `fetch` resets the form, the interval's next tick sets progress to 10 while nothing is uploading |
| DataUtils.CodeBranchOf | src/lib/data-utils.ts:97-224 | the chosen program's test holds and every earlier test fails |
| DataUtils.FallbackCode | src/lib/data-utils.ts:205-224 | the default program loads the dataset's csv, quotes the raw query in the comment line, and again in the title |
| DataUtils.GenerateSampleCode | src/lib/data-utils.ts:97-224 | the program of the first matching test |
| DataUtils.TitanicImage | src/lib/data-utils.ts:231-242 | a titanic image, namely the first of age histogram, gender survival, age-fare scatter, class survival and the default whose test holds |
| DataUtils.IrisImage | src/lib/data-utils.ts:243-252 | an iris image, namely the first of sepal scatter, petal histogram, boxplot and the default whose test holds |
| DataUtils.GapminderImage | src/lib/data-utils.ts:253-262 | a gapminder image, namely the first of gdp-life, population, continent and the default whose test holds |
| DataUtils.VisualizationImage | src/lib/data-utils.ts:227-266 | titanic, iris and gapminder each get the first image of their own order whose keyword test holds; the generic chart exactly for any other dataset |
| DataUtils.TitanicDefaultIff | src/lib/data-utils.ts:231-242 | the titanic default image exactly when no keyword test holds |
| DataUtils.KeywordsIgnoreCase | src/lib/data-utils.ts:97-266 | both routers ignore the query's case |
| DataUtils.ImagesIgnoreCase | src/lib/data-utils.ts:231-262 | each dataset's image router gives the same image for a query and its lowercase |
| DataUtils.IrisScatterGetsTitanicCode | src/lib/data-utils.ts:119-160 | an iris scatter query gets the titanic scatter program |
| DataUtils.DatasetIsCaseSensitive | src/lib/data-utils.ts:160-206 | "Iris" falls through to the default program |
| DataUtils.FiveSampleQueries | src/lib/data-utils.ts:72-94 | each dataset has five sample queries |
| Analyze.ColumnsOf | supabase/functions/analyze/index.ts:42-48 | unparseable columns become [] |
| Analyze.SystemPrompt | supabase/functions/analyze/index.ts:51-54 | the system prompt names the columns joined by ", " |
| Analyze.ExplanationPrompt | supabase/functions/analyze/index.ts:83-90 | the explanation prompt quotes the query and then the code |
| Analyze.TitanicImage | supabase/functions/analyze/index.ts:124-132 | a titanic image, namely the first of age histogram, class survival ("class" or "survival"), gender survival and the default whose test holds |
| Analyze.IrisImage | supabase/functions/analyze/index.ts:134-142 | an iris image, namely the first of petal histogram, sepal scatter ("sepal" and "scatter"), boxplot and the default whose test holds |
| Analyze.ImageUrl | supabase/functions/analyze/index.ts:120-145 | the dataset name, lowercased, chooses titanic, then iris, then the generic chart; within a dataset, the first image of its order whose keyword test holds |
| Analyze.ErrorText | supabase/functions/analyze/index.ts:175-184 | an empty error message falls back to a fixed text |
| Analyze.NotFoundMessage | supabase/functions/analyze/index.ts:37-39 | the lookup error starts with "Dataset not found: " |
| Analyze.Handle | supabase/functions/analyze/index.ts:11-185 | OPTIONS, then the API key, then the request body, then the lookup are checked in order; the code is requested first, the explanation only after code content; a non-ok reply gives "OpenAI API error: " (code) or "OpenAI API error (explanation): " with its text, and a reply without content gives its error, each with no later call; when every step succeeds the response is 200 with code, explanation and image, after recording the query |
| Analyze.SurvivalBeforeGender | supabase/functions/analyze/index.ts:124-129 | "survival" is tested before "gender" |
| Analyze.UnparseableColumnsEmpty | supabase/functions/analyze/index.ts:42-54 | unparseable columns give an empty column list in the prompt |
| AiChat.BuildPrompt | supabase/functions/ai-chat/index.ts:18-63 | the prompt embeds the profile then the query, and is otherwise constant |
| AiChat.PromptLabels | supabase/functions/ai-chat/index.ts:20-23 | the labels "Data Profile: " and "User Query: " precede the insertions |
| AiChat.BuildPromptInjective | supabase/functions/ai-chat/index.ts:18-63 | profiles of equal length are recoverable from the prompt together with the query |
| AiChat.Authorization | supabase/functions/ai-chat/index.ts:86 | the header is "Bearer " and the key |
| AiChat.ErrorText | supabase/functions/ai-chat/index.ts:117-123 | an empty error message falls back to a fixed text |
| AiChat.Handle | supabase/functions/ai-chat/index.ts:65-124 | a missing query or profile gives 400 without a call; an upstream error gives 500 "OpenAI error: "; a reply without content gives "" |
| Navigation.Firsts | src/components/Navigation.tsx:37 | at most one character per piece, exactly one for non-empty pieces |
| Navigation.UserInitials | src/components/Navigation.tsx:32-42 | no user gives "?"; a full name wins and gives its uppercased initials; else the uppercased first letter of the email, or "U" |
| Navigation.FirstsOfWords | src/components/Navigation.tsx:37 | non-empty pieces each give their first character |
| Navigation.InitialsOfWords | src/components/Navigation.tsx:34-39 | a name of space-separated words gives the uppercased first letter of every word, in order |
| Navigation.DoubleSpaceSkipped | src/components/Navigation.tsx:36-38 | two consecutive spaces give an empty piece that contributes nothing |
| ThemeToggle.Mounted | src/components/ThemeToggle.tsx:8-19 | dark exactly when the stored theme is "dark" or the system prefers dark and nothing is stored; the class follows; storage is not written |
| ThemeToggle.Toggled | src/components/ThemeToggle.tsx:21-31 | the flag is negated, stored as "dark" or "light", and the class follows |
| ThemeToggle.ThemeToggle.constructor | src/components/ThemeToggle.tsx:6 | the switch starts light |
| ThemeToggle.ThemeToggle.Mount | src/components/ThemeToggle.tsx:8-19 | the mount effect produces the mounted state |
| ThemeToggle.ThemeToggle.Toggle | src/components/ThemeToggle.tsx:21-31 | a click produces the toggled state |
| ThemeToggle.ToggleTwice | src/components/ThemeToggle.tsx:21-31 | two clicks restore the flag and the class |
| ThemeToggle.StoredLightStaysLight | src/components/ThemeToggle.tsx:9-12 | a stored "light" wins over the system preference |
| ThemeToggle.NothingStoredFollowsSystem | src/components/ThemeToggle.tsx:10 | with nothing stored, the system preference decides |
| ThemeToggle.MountAfterToggleKeeps | src/components/ThemeToggle.tsx:8-31 | after a click, a later mount keeps the clicked theme |

## Left out

- Strings are sequences of characters. `lower` and `toUpperCase` are modelled on ASCII only. `trim` removes JavaScript's ASCII whitespace, and `strip` removes Python's ASCII whitespace, which adds U+001C to U+001F. Unicode whitespace (such as U+00A0 or U+2028) and Unicode case mapping are not covered.
- `Number()` and `isNaN` are an abstract predicate on strings (`isNumber`), so floating-point parsing is not modelled.
- Database, storage, authentication and chat completion calls are parameters (their outcomes) or recorded effects. Their own behaviour is not modelled.
- `ast.parse` is not modelled: the syntax tree is an input. Only the node kinds the visitor tests are distinguished.
- Python's `re` engine is not modelled; only the fence pattern of `_extract_code` is scanned by hand.
- Running generated code (`exec`, restricted globals, matplotlib figures, PNG encoding) is a parameter of `SafeExecute`.
- `Date.now()` ids and timestamps are parameters. The upload interval is a count of ticks, and toasts are a list.
- `DataManager.load_predefined_datasets` and `get_dataset_info` are not modelled; the stats they would compute are given to the constructor.
- `DataManager.Preprocess`: the column renaming is modelled, and so is the error the filling loops raise on a renamed label that several columns share. The median and mode values they fill in are floating-point work and are left out, and column types are reduced to number, text and boolean.
- `DataManager.DataManager.UploadDataset`: the `secure_filename` call is left out because its result is not used to name the stored file.
- `UploadDataset.HandleUpload`: request fields are taken as already-read strings, and JSON serialisation of the record is not modelled.
- `Analyze.ColumnsOf`: `JSON.parse` is modelled as a list of names or a failure; a JSON value that is not a list is not modelled.
- `UseChatMessages.ChatMessages.Fetch`: the table keeps rows in insertion order, stamped by a clock that never runs backwards, so the sort on `created_at` returns them in insertion order; the database does not promise an order among rows with equal stamps, and the model fixes insertion order there.
- `Analyze.Handle`: a request body is either unreadable or has string `dataset` and `query` fields; a missing or non-string field is not modelled.
- `DatasetUploader.DatasetUploader.HandleSubmit`: a failure of `response.json()` on a successful response is not modelled.
- `DatasetUploader.DatasetUploader.HandleSubmit`: the form has one interval flag, so intervals leaked by several rejected submissions are modelled as one.
- `Navigation.UserInitials`: only the version in Navigation.tsx is modelled; GlobalNav.tsx, DatasetChatPanel.tsx and ProfilePage.tsx are not part of this model.
- Rendering, routing, styling and the react-query cache timing are not modelled.
