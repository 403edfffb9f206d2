# AINoval writing server — a Dafny model

AINoval is an AI-assisted novel-writing system. Its Spring WebFlux server keeps novels as acts, chapters and scenes, imports plain-text manuscripts, and drives language models through a provider layer (LangChain4j models, a per-user provider cache, retrieval-augmented context). Long jobs run as background tasks on a message queue: batch scene summaries, chapter continuation and next-chapter summaries. A Node script drives the HTTP endpoints as a load test.

This project models the core of that server in Dafny 4.11 and proves properties of the model. Every source file of the core has its own module:

- **Background tasks.** `TaskModel` is the task record and its state changes; `TaskState` is the task store; `TaskProducer`, `TaskConsumption` and `TaskSubmission` cover the queue; `Execution` is the executor registry.
- **Progress aggregation.** `Aggregation`, `BatchSummaryAggregation`, `NextSummariesAggregation` and `ContinueWritingAggregation` fold child-task reports into the parent task.
- **Task executables.** `BatchSummaryExecution`, `SummaryExecution`, `SingleSummaryExecution`, `SingleChapterExecution` and `NextSummariesExecution`.
- **Novel content.** `NovelModel` (acts, chapters, scenes) and `SceneService` (the scene repository); `TxtParser`, `ImportService` and `TextConverter` turn text into chapters.
- **AI services.** `AIService` (the model table and provider lookup), `LangChainProvider` (message conversion and error responses), `NovelAI` (context enrichment and the provider cache), `AIChat` (chat sessions and messages), `NextOutlines` (outline generation, parsing and placement) and `StructuredOutput`.
- **Prompts.** `PromptUtil`, `PromptTemplates` and `PromptTemplateWeb`.
- **Settings, users and embeddings.** `NovelSettings` and `SettingTypes` (setting items, relationships, groups and relevance ranking), `UserService`, and `EmbeddingStore` (the vector-store adapter's guards and batching).
- **Load test.** `PerfScript`.
- **Shared helpers.** `Wrappers` (Option, Result and the exception kinds) and `JStrings` (the Java string operations the code relies on: trim, split, case folding, number formatting).

Code that mutates state in place is modelled as classes whose methods change their fields under `modifies`. Examples are the task store, the scene, setting, user, chat and outline repositories, and the provider cache. Each such method is proved against functions on the old state. Pure transformations are functions with lemmas. Loops in the source stay loops, with invariants tying them to a specification function. Repositories, the message broker, the language models, clocks and UUIDs are parameters: a call's outcome, the drawn id or the current time is passed in.

## Model

| member | source | states |
|---|---|---|
| PerfScript.FormatDuration | AINovalServer/performance_test_script.js:41-46 | the text always ends in "s", ends in "ms" exactly below one second, and holds a decimal point from one second up |
| PerfScript.FormatDurationPadded | AINovalServer/performance_test_script.js:41-46 | the same units; from one second up the text ends in a dot, three digits and "s" |
| PerfScript.ReadMillis | AINovalServer/performance_test_script.js:42 | a duration below one second printed as "<ms>ms" reads back as the same number of milliseconds |
| PerfScript.ReadSeconds | AINovalServer/performance_test_script.js:43-45 | the seconds form "<q>.<f>s" reads back as q seconds plus the fraction f |
| PerfScript.FormatDurationReadsBackWhenThreeDigits | AINovalServer/performance_test_script.js:41-46 | formatDuration as written reads back correctly below one second or when the remainder already has three digits |
| PerfScript.FormatDurationMisreads1005 | AINovalServer/performance_test_script.js:43-45 | as written, 1005 ms prints as "1.5s", which reads as 1500 ms |
| PerfScript.FormatDurationPaddedReadsBack | AINovalServer/performance_test_script.js:41-46 | with the remainder padded to three digits, every duration reads back as itself |
| PerfScript.CreateAuthHeaders | AINovalServer/performance_test_script.js:129-150 | Content-Type is always JSON; test mode sends nothing else; Authorization ("Bearer " + token) is present iff the token is non-empty outside test mode; X-CSRF-TOKEN is present iff it is asked for and the CSRF token is non-empty |
| PerfScript.IssuedRequests | AINovalServer/performance_test_script.js:165-234 | the run issues the seven requests in order, each with the headers createAuthHeaders gives for it, up to and including the first one that throws |
| PerfScript.ScriptState.constructor | AINovalServer/performance_test_script.js:16-38 | the script starts with the test-mode flag and two empty tokens |
| PerfScript.ScriptState.Authenticate | AINovalServer/performance_test_script.js:75-126 | test mode answers true and changes nothing; otherwise a non-empty login token is stored, a CSRF header value is stored when present and non-empty, a missing CSRF header still answers true, and a failed login or request answers false |
| PerfScript.ScriptState.RunTests | AINovalServer/performance_test_script.js:153-163 | outside test mode a failed authentication issues no request; otherwise the planned requests go out with the stored tokens |
| PerfScript.IssuedRequestsCarryToken | AINovalServer/performance_test_script.js:141-143 | after a standard-mode login every issued request carries the bearer token |
| PerfScript.PrintResult | AINovalServer/performance_test_script.js:49-72 | the three header lines and the ✓/✗ message line come first; four request lines follow only on success with a non-zero request count (the duration line is the total time through the unpadded formatDuration, which misreads a remainder below 100 ms), and three count lines only on success with a non-zero novel count |
| PromptUtil.MatchShape | AINovalServer/src/main/java/com/ainovel/server/common/util/PromptUtil.java:23 | a placeholder match starts with '{' and ends with '}', and its non-empty name holds no brace, in the single- or double-brace form |
| PromptUtil.SingleBraceForm | AINovalServer/src/main/java/com/ainovel/server/common/util/PromptUtil.java:23 | "{name}" with a brace-free name is matched by the first alternative, with the name between the braces |
| PromptUtil.DoubleBraceForm | AINovalServer/src/main/java/com/ainovel/server/common/util/PromptUtil.java:23 | "{{name}}" with a brace-free name is matched as a double-brace placeholder covering both pairs of braces |
| PromptUtil.FindFromFirst | AINovalServer/src/main/java/com/ainovel/server/common/util/PromptUtil.java:103 | the matcher's find returns the first position at which a placeholder matches |
| PromptUtil.FindFromNoEarlier | AINovalServer/src/main/java/com/ainovel/server/common/util/PromptUtil.java:103 | no placeholder matches between the search start and the position find returns |
| PromptUtil.FindFromNoneNoMatch | AINovalServer/src/main/java/com/ainovel/server/common/util/PromptUtil.java:103 | when find fails, no position after the search start matches a placeholder |
| PromptUtil.KnownPlaceholderReplaced | AINovalServer/src/main/java/com/ainovel/server/common/util/PromptUtil.java:105-119 | a "{name}" whose name is a key is replaced by that key's value, the text before it is kept, and rendering resumes after the closing brace |
| PromptUtil.KnownDoublePlaceholderReplaced | AINovalServer/src/main/java/com/ainovel/server/common/util/PromptUtil.java:105-119 | a "{{name}}" whose name is a key is replaced by that key's value and rendering resumes after the closing pair |
| PromptUtil.UnknownPlaceholdersKept | AINovalServer/src/main/java/com/ainovel/server/common/util/PromptUtil.java:113-116 | when no placeholder name is a key, the text is left exactly as it was |
| PromptUtil.ContainsPlaceholder | AINovalServer/src/main/java/com/ainovel/server/common/util/PromptUtil.java:136-141 | containsPlaceholder holds only if some position matches a placeholder |
| PromptUtil.NoPlaceholderNoMatch | AINovalServer/src/main/java/com/ainovel/server/common/util/PromptUtil.java:136-141 | when containsPlaceholder fails, no position of the text matches a placeholder |
| PromptUtil.ContainsPlaceholderIffNames | AINovalServer/src/main/java/com/ainovel/server/common/util/PromptUtil.java:136-141 | containsPlaceholder holds exactly when the list of placeholder names is non-empty |
| PromptUtil.StripTags | AINovalServer/src/main/java/com/ainovel/server/common/util/PromptUtil.java:19 | removing "<...>" tags introduces no '>' that was not in the input |
| PromptUtil.NoTagAfterStrip | AINovalServer/src/main/java/com/ainovel/server/common/util/PromptUtil.java:49-50 | after the tags are removed, no '<' is followed later by a '>' |
| PromptUtil.ReplaceAbsent | AINovalServer/src/main/java/com/ainovel/server/common/util/PromptUtil.java:51-55 | replacing an entity that does not occur leaves the text unchanged |
| PromptUtil.ExtractPlainText | AINovalServer/src/main/java/com/ainovel/server/common/util/PromptUtil.java:31-61 | empty content gives "", content that is neither Quill JSON nor holds both '<' and '>' comes back unchanged, and the converted forms are trimmed at both ends |
| PromptUtil.ReplacePlaceholders | AINovalServer/src/main/java/com/ainovel/server/common/util/PromptUtil.java:99-127 | the replacement loop produces the rendering of the text: text between matches is copied, known names replaced, unknown placeholders kept, the tail appended |
| PromptUtil.AppendVariables | AINovalServer/src/main/java/com/ainovel/server/common/util/PromptUtil.java:83-93 | the result is the prefix followed by one "key: value" line per entry whose value is neither null nor empty, in iteration order |
| PromptUtil.FormatPromptTemplate | AINovalServer/src/main/java/com/ainovel/server/common/util/PromptUtil.java:71-128 | an empty template gives ""; without placeholders the variables are appended after a blank line (if any are given); otherwise placeholders are rendered |
| PromptUtil.ExtractPlaceholders | AINovalServer/src/main/java/com/ainovel/server/common/util/PromptUtil.java:149-167 | the map's keys are exactly the placeholder names of the plain text, each mapped to "", and an empty template gives an empty map |
| TxtParser.RomanHeadingPrefix | AINovalServer/src/main/java/com/ainovel/server/service/impl/TxtNovelParser.java:29 | the corrected roman alternative accepts a numeral only when it ends the line or is followed by '.', ':' or '：' |
| TxtParser.AsWrittenTakesWordForTitle | AINovalServer/src/main/java/com/ainovel/server/service/impl/TxtNovelParser.java:28-31 | as written, any line starting with one of I, V, X, L, D, M followed by a letter that is neither a numeral letter nor a separator is a chapter title; the corrected test rejects it |
| TxtParser.AsWrittenTakesSentenceForTitle | AINovalServer/src/main/java/com/ainovel/server/service/impl/TxtNovelParser.java:28-31 | as written, the prose line "Mary smiled." is taken for a chapter title; the corrected test rejects it |
| TxtParser.TitleNarrowsAsWritten | AINovalServer/src/main/java/com/ainovel/server/service/impl/TxtNovelParser.java:28-31 | every line the corrected title test accepts is also accepted by the pattern as written |
| TxtParser.WordAfterNumeralNotTitle | AINovalServer/src/main/java/com/ainovel/server/service/impl/TxtNovelParser.java:29 | roman letters running straight into a word do not make a title unless the Chinese or "Chapter N" alternative matches |
| TxtParser.TitleNonEmpty | AINovalServer/src/main/java/com/ainovel/server/service/impl/TxtNovelParser.java:29 | a line the title pattern as written accepts is never empty |
| TxtParser.ClassifyHeading | AINovalServer/src/main/java/com/ainovel/server/service/impl/TxtNovelParser.java:45-70 | a line is a heading exactly when its trimmed text matches the title pattern as written (so "Mary smiled." is a heading); a heading keeps the trimmed line as its title, a content line keeps the line itself |
| TxtParser.ParseStream | AINovalServer/src/main/java/com/ainovel/server/service/impl/TxtNovelParser.java:34-81 | the forEach over the lines builds the same novel as the parse of the lines classified with the title pattern as written |
| TxtParser.ParseWellFormed | AINovalServer/src/main/java/com/ainovel/server/service/impl/TxtNovelParser.java:34-101 | the novel is titled "导入的小说"; every saved scene has content, orders strictly increase, order 0 is titled "前言" and order k carries the k-th title line |
| TxtParser.TitlesOfLines | AINovalServer/src/main/java/com/ainovel/server/service/impl/TxtNovelParser.java:45-62 | every chapter title recorded is the trimmed form of an input line that matches the title pattern as written |
| TxtParser.BodyJoinsLines | AINovalServer/src/main/java/com/ainovel/server/service/impl/TxtNovelParser.java:64-70 | the buffered chapter text is the lines after the last title, leading empty lines dropped, joined with "\n" |
| TxtParser.NoHeadings | AINovalServer/src/main/java/com/ainovel/server/service/impl/TxtNovelParser.java:43-77 | a file without title lines records no titles and saves no scene before the final flush |
| TxtParser.PrefaceScene | AINovalServer/src/main/java/com/ainovel/server/service/impl/TxtNovelParser.java:74-87 | non-empty text before the first title line becomes the first scene, with order 0 and title "前言" |
| TextConverter.CharLength | src/main/java/com/example/TextFileConverter.java:134-142 | the UTF-8 decoder consumes between one and four bytes per character, never more than are left |
| TextConverter.EncodeChar | src/main/java/com/example/TextFileConverter.java:58-59 | the UTF-8 writer emits one to four bytes per character |
| TextConverter.EncodeIsValid | src/main/java/com/example/TextFileConverter.java:58-59 | whatever the converter writes through the UTF-8 writer is valid UTF-8 for the decoder |
| TextConverter.AsciiIsValid | src/main/java/com/example/TextFileConverter.java:134-142 | a file of ASCII bytes passes the UTF-8 validity check |
| TextConverter.NoFeFfInValid | src/main/java/com/example/TextFileConverter.java:103-113 | valid UTF-8 never holds the bytes 0xFE or 0xFF, so the UTF-16 byte-order marks can only come from a non-UTF-8 file |
| TextConverter.DetectEncoding | src/main/java/com/example/TextFileConverter.java:91-129 | a UTF-8 BOM gives "UTF-8", FF FE gives "UTF-16LE", FE FF gives "UTF-16BE"; "GBK" is chosen exactly when the file has no BOM and is not valid UTF-8; a valid UTF-8 file without a BOM gives "UTF-8" |
| TextConverter.ValidUtf8Detected | src/main/java/com/example/TextFileConverter.java:91-129 | every valid UTF-8 file, BOM or not, is detected as "UTF-8", since no UTF-16 mark can start one |
| TextConverter.EncodedTextIsUtf8 | src/main/java/com/example/TextFileConverter.java:91-129 | a file written by the converter is detected as UTF-8 |
| TextConverter.Utf8NotRewritten | src/main/java/com/example/TextFileConverter.java:46-49 | a converted file, with or without a UTF-8 BOM, is not converted again |
| TextConverter.CopyLines | src/main/java/com/example/TextFileConverter.java:61-65 | the copy loop writes every line followed by the line separator |
| TextConverter.TerminatedIsJoinPlusNewline | src/main/java/com/example/TextFileConverter.java:61-65 | for a non-empty file the output is the lines joined by the separator plus one final separator |
| ImportService.FileExtension | AINovalServer/src/main/java/com/ainovel/server/service/impl/ImportServiceImpl.java:302-308 | the extension holds no dot; when the last dot is not the first char the name is the stem, a dot and the extension, otherwise the extension is "" |
| ImportService.TitleFromFilename | AINovalServer/src/main/java/com/ainovel/server/service/impl/ImportServiceImpl.java:313-320 | a name without a qualifying dot is kept; otherwise the title is shorter than the name, holds no '-' or '_', and is already trimmed |
| ImportService.NoDashOrUnderscore | AINovalServer/src/main/java/com/ainovel/server/service/impl/ImportServiceImpl.java:317 | replacing '-' and '_' by spaces leaves neither char |
| ImportService.TitleAndExtensionSplitName | AINovalServer/src/main/java/com/ainovel/server/service/impl/ImportServiceImpl.java:302-320 | the title and the extension split the file name at the same last dot |
| ImportService.FindParser | AINovalServer/src/main/java/com/ainovel/server/service/impl/ImportServiceImpl.java:292-295 | the parser chosen is the first whose extension equals the file's ignoring case; none is chosen exactly when no extension matches |
| ImportService.ParserForFile | AINovalServer/src/main/java/com/ainovel/server/service/impl/ImportServiceImpl.java:289-297 | an unsupported extension fails with IllegalArgumentException "不支持的文件类型: " plus the lower-cased extension, exactly when no parser matches |
| ImportService.TxtParserChosen | AINovalServer/src/main/java/com/ainovel/server/service/impl/ImportServiceImpl.java:289-297 | "novel.TXT" is handled by the TXT parser |
| ImportService.NovelTitle | AINovalServer/src/main/java/com/ainovel/server/service/impl/ImportServiceImpl.java:164-168 | the parser's title is kept unless it is null or empty, in which case the title comes from the file name |
| ImportService.TxtNovelTitle | AINovalServer/src/main/java/com/ainovel/server/service/impl/ImportServiceImpl.java:164-168 | an imported text file always keeps the TXT parser's default title, whatever the file name |
| ImportService.ReadTimeMinutes | AINovalServer/src/main/java/com/ainovel/server/service/impl/ImportServiceImpl.java:250 | the reading time is the least whole number of minutes that covers the words at 300 a minute |
| ImportService.SaveNovelAndScenes | AINovalServer/src/main/java/com/ainovel/server/service/impl/ImportServiceImpl.java:207-284 | one scene per parsed chapter with its title, content and order; a "draft" novel of version 1 whose word count is the total content length and whose reading time is its ceiling over 300; one act "第一卷" with one chapter per scene, in order |
| ImportService.TotalLengthAppend | AINovalServer/src/main/java/com/ainovel/server/service/impl/ImportServiceImpl.java:245-247 | the word count adds each scene's content length |
| ImportService.TotalLengthAtLeastCount | AINovalServer/src/main/java/com/ainovel/server/service/impl/ImportServiceImpl.java:245-247 | with non-empty scene contents, the word count is at least the number of scenes |
| Execution.Success | AINovalServer/src/main/java/com/ainovel/server/task/ExecutionResult.java:23-25 | a success carries its result, reports success and is not retryable |
| Execution.RetryableFailure | AINovalServer/src/main/java/com/ainovel/server/task/ExecutionResult.java:33-35 | a retryable failure carries its throwable and no result, and reports failure and retryable |
| Execution.NonRetryableFailure | AINovalServer/src/main/java/com/ainovel/server/task/ExecutionResult.java:43-45 | a non-retryable failure carries its throwable and no result, and is not retryable |
| Execution.ExecuteTask | AINovalServer/src/main/java/com/ainovel/server/task/service/impl/TaskExecutorServiceImpl.java:52-83 | a null executable or context is a non-retryable IllegalArgumentException with its message; the run succeeds exactly when the executable returns, with that result; a thrown exception is retryable exactly when it is classified as transient: a timeout, an IOException (socket timeout, connect and JSON processing failures included), a message naming a transient condition, or an optimistic-lock conflict |
| Execution.JsonFailureRetried | AINovalServer/src/main/java/com/ainovel/server/task/service/impl/TaskExecutorServiceImpl.java:93-99 | a JsonProcessingException is an IOException, so executeTask returns it as a retryable failure |
| Execution.TimeoutMessageRetryable | AINovalServer/src/main/java/com/ainovel/server/task/service/impl/TaskExecutorServiceImpl.java:102-109 | any exception whose message contains "timeout" is retried, whatever its class |
| Execution.PlainFailureNotRetried | AINovalServer/src/main/java/com/ainovel/server/task/service/impl/TaskExecutorServiceImpl.java:91-119 | an exception without a message that is neither a timeout, an IOException (JSON processing included) nor an optimistic-lock conflict is not retried |
| Execution.TaskExecutorService.constructor | AINovalServer/src/main/java/com/ainovel/server/task/service/impl/TaskExecutorServiceImpl.java:33-39 | every executable's task type is registered, and a type registered twice keeps the last executable |
| Execution.TaskExecutorService.FindExecutor | AINovalServer/src/main/java/com/ainovel/server/task/service/impl/TaskExecutorServiceImpl.java:42-48 | a registered task type gives its executable and any other type gives none |
| TaskModel.TimestampKeyIsLowerCaseName | AINovalServer/src/main/java/com/ainovel/server/task/model/BackgroundTask.java:95 | a status change is recorded under the lower-cased name of the status |
| TaskModel.TimestampKeysDistinct | AINovalServer/src/main/java/com/ainovel/server/task/model/BackgroundTask.java:92-96 | different statuses are recorded under different timestamp keys |
| TaskModel.NewTaskDoc | AINovalServer/src/main/java/com/ainovel/server/task/model/BackgroundTask.java:53-61 | a new task is queued with no retries, its only timestamp "created", no error, parent, node or sub-task summary |
| TaskModel.BackgroundTask.constructor | AINovalServer/src/main/java/com/ainovel/server/task/model/BackgroundTask.java:53-61 | the four-argument constructor leaves exactly the new-task document |
| TaskModel.BackgroundTask.Load | AINovalServer/src/main/java/com/ainovel/server/task/model/BackgroundTask.java:50-51 | the entity read back from the repository holds the stored document |
| TaskModel.BackgroundTask.SetStatus | AINovalServer/src/main/java/com/ainovel/server/task/model/BackgroundTask.java:92-96 | setStatus changes the status and stamps the time under the status's key; all other keys and fields are kept |
| TaskModel.BackgroundTask.SetRetryCount | AINovalServer/src/main/java/com/ainovel/server/task/model/BackgroundTask.java:142-144 | only the retry count changes |
| TaskModel.BackgroundTask.IncrementRetryCount | AINovalServer/src/main/java/com/ainovel/server/task/model/BackgroundTask.java:146-148 | the retry count goes up by one and nothing else changes |
| TaskModel.BackgroundTask.SetProgress | AINovalServer/src/main/java/com/ainovel/server/task/model/BackgroundTask.java:110-112 | only the progress changes |
| TaskModel.BackgroundTask.SetResult | AINovalServer/src/main/java/com/ainovel/server/task/model/BackgroundTask.java:118-120 | only the result changes |
| TaskModel.BackgroundTask.SetErrorInfo | AINovalServer/src/main/java/com/ainovel/server/task/model/BackgroundTask.java:126-128 | only the error info changes |
| TaskModel.BackgroundTask.SetExecutionNodeId | AINovalServer/src/main/java/com/ainovel/server/task/model/BackgroundTask.java:170-172 | only the execution node changes |
| TaskModel.BackgroundTask.SetLastAttemptTimestamp | AINovalServer/src/main/java/com/ainovel/server/task/model/BackgroundTask.java:154-156 | only the last attempt time changes |
| TaskModel.BackgroundTask.SetNextAttemptTimestamp | AINovalServer/src/main/java/com/ainovel/server/task/model/BackgroundTask.java:162-164 | only the next attempt time changes |
| TaskModel.BackgroundTask.SetParentTaskId | AINovalServer/src/main/java/com/ainovel/server/task/model/BackgroundTask.java:178-180 | only the parent task id changes |
| TaskModel.BackgroundTask.SetSubTaskStatusSummary | AINovalServer/src/main/java/com/ainovel/server/task/model/BackgroundTask.java:186-188 | only the sub-task status summary changes |
| TaskModel.StatusChangesKeepEarlierStamps | AINovalServer/src/main/java/com/ainovel/server/task/model/BackgroundTask.java:92-96 | two changes to different statuses keep both times, each under its own key |
| TaskState.TaskRepository.constructor | AINovalServer/src/main/java/com/ainovel/server/repository/BackgroundTaskRepository.java:17 | the repository starts with the given documents, each stored under its own id |
| TaskState.TaskRepository.FindById | AINovalServer/src/main/java/com/ainovel/server/repository/BackgroundTaskRepository.java:17 | findById finds a document exactly when one is stored under the id |
| TaskState.TaskRepository.Save | AINovalServer/src/main/java/com/ainovel/server/repository/BackgroundTaskRepository.java:17 | save replaces whatever was stored under the document's id and keeps every other document |
| TaskState.SumRemove | AINovalServer/src/main/java/com/ainovel/server/task/service/impl/TaskStateServiceImpl.java:172 | the stream sum of the counters does not depend on the order the keys are taken in |
| TaskState.SumAddToKey | AINovalServer/src/main/java/com/ainovel/server/task/service/impl/TaskStateServiceImpl.java:165-172 | adding delta to one counter adds delta to the total |
| TaskState.SumOfValues | AINovalServer/src/main/java/com/ainovel/server/task/service/impl/TaskStateServiceImpl.java:172 | the stream sum over the summary's values equals the sum of the counters |
| TaskState.ExpectedTotal | AINovalServer/src/main/java/com/ainovel/server/task/service/impl/TaskStateServiceImpl.java:176-188 | a known expected total comes from a numeric "totalSubTasks" entry of a map progress; anything else leaves -1 |
| TaskState.SettledStatus | AINovalServer/src/main/java/com/ainovel/server/task/service/impl/TaskStateServiceImpl.java:192-198 | the parent completes exactly when no sub-task failed, completes with errors when some but fewer than expected failed, and fails otherwise |
| TaskState.SettlesOnlyWhenAllReported | AINovalServer/src/main/java/com/ainovel/server/task/service/impl/TaskStateServiceImpl.java:171-200 | a report changes the parent's status only when it is a "completed" or "failed" report that brings the counters up to a positive expected total |
| TaskState.TaskStateService.constructor | AINovalServer/src/main/java/com/ainovel/server/task/service/impl/TaskStateServiceImpl.java:39-51 | the service uses the given repository and host identifier and starts with no local tasks |
| TaskState.TaskStateService.CreateTask | AINovalServer/src/main/java/com/ainovel/server/task/service/impl/TaskStateServiceImpl.java:54-58 | a new queued task with the given parent is saved under its id |
| TaskState.TaskStateService.TrySetRunning | AINovalServer/src/main/java/com/ainovel/server/task/service/impl/TaskStateServiceImpl.java:66-96 | only a stored queued or retrying task starts: it becomes running, runs on the named node or this host, gets its attempt time and joins the local set; otherwise nothing changes |
| TaskState.TaskStateService.RecordProgress | AINovalServer/src/main/java/com/ainovel/server/task/service/impl/TaskStateServiceImpl.java:99-109 | only a running task records the progress; any other task is left unchanged |
| TaskState.TaskStateService.RecordCompletion | AINovalServer/src/main/java/com/ainovel/server/task/service/impl/TaskStateServiceImpl.java:112-128 | a running task completes with its result; the task leaves the local set whatever the outcome |
| TaskState.TaskStateService.RecordFailure | AINovalServer/src/main/java/com/ainovel/server/task/service/impl/TaskStateServiceImpl.java:131-143 | any stored task fails, or goes to the dead letter state when asked, with its error info, and leaves the local set |
| TaskState.TaskStateService.RecordRetrying | AINovalServer/src/main/java/com/ainovel/server/task/service/impl/TaskStateServiceImpl.java:146-155 | any stored task goes back to retrying with the error info and next attempt time, one retry further on |
| TaskState.TaskStateService.UpdateSubTaskStatusSummary | AINovalServer/src/main/java/com/ainovel/server/task/service/impl/TaskStateServiceImpl.java:157-204 | the counter under the key grows by delta and the parent settles when all expected sub-tasks have reported |
| TaskState.TaskStateService.FindByIdAndUserId | AINovalServer/src/main/java/com/ainovel/server/task/service/impl/TaskStateServiceImpl.java:212-215 | a task is found only when it is stored and belongs to the user |
| TaskState.TaskStateService.CancelTask | AINovalServer/src/main/java/com/ainovel/server/task/service/impl/TaskStateServiceImpl.java:218-232 | a completed, failed or dead-lettered task stays as it is; any other stored task is cancelled |
| TaskProducer.DelayQueue | AINovalServer/src/main/java/com/ainovel/server/task/producer/TaskMessageProducer.java:169-179 | retry counts up to 1 wait 15 s, 2-3 wait 1 min, 4-5 wait 5 min and more wait 30 min; each count maps to exactly one queue |
| TaskProducer.DelayNeverShrinks | AINovalServer/src/main/java/com/ainovel/server/config/RabbitMQConfig.java:236-275 | a later retry never waits less than an earlier one, and every wait lies between 15 s and 30 min |
| TaskProducer.TaskMessageFor | AINovalServer/src/main/java/com/ainovel/server/task/producer/TaskMessageProducer.java:43-80 | a task goes to the tasks exchange routed by "task." plus its type, with the task id as message id and the retry count, task id and type in the headers |
| TaskProducer.FirstTaskMessage | AINovalServer/src/main/java/com/ainovel/server/task/producer/TaskMessageProducer.java:85-87 | the four-argument sendTask is a first delivery with retry count 0 |
| TaskProducer.RetryMessageFor | AINovalServer/src/main/java/com/ainovel/server/task/producer/TaskMessageProducer.java:92-130 | a retry goes through the default exchange straight to the delay queue for its retry count, with the task's headers plus the original routing key |
| TaskProducer.EventMessageFor | AINovalServer/src/main/java/com/ainovel/server/task/producer/TaskMessageProducer.java:135-164 | an event goes to the events exchange routed by "task.event." plus its type, with the type in its only header |
| TaskProducer.TaskAndEventKeysDiffer | AINovalServer/src/main/java/com/ainovel/server/task/producer/TaskMessageProducer.java:45-137 | a task's routing key never equals an event's when the task type does not start with "event." |
| TaskConsumption.ParseInt | AINovalServer/src/main/java/com/ainovel/server/task/consumer/TaskConsumer.java:205 | Integer.parseInt accepts what Long.parseLong accepts, only within the 32-bit range |
| TaskConsumption.RetryCountOf | AINovalServer/src/main/java/com/ainovel/server/task/consumer/TaskConsumer.java:201-206 | a delivery without an x-retry-count header, or with a null one, has retry count 0; a header that does not parse is a NumberFormatException |
| TaskConsumption.RetryCountRoundTrip | AINovalServer/src/main/java/com/ainovel/server/task/consumer/TaskConsumer.java:201-206 | the retry count a producer writes into a task or retry message is the count the consumer reads back |
| TaskConsumption.DelayFor | AINovalServer/src/main/java/com/ainovel/server/task/consumer/TaskConsumer.java:458-464 | a retry count inside the configured delays picks its own entry, a larger one the last entry; a negative count or an empty configuration fails |
| TaskConsumption.DelayGrowsWithRetries | AINovalServer/src/main/java/com/ainovel/server/task/consumer/TaskConsumer.java:458-464 | with non-decreasing configured delays, a later retry never waits less |
| TaskConsumption.Dispatch | AINovalServer/src/main/java/com/ainovel/server/task/consumer/TaskConsumer.java:243-261 | success completes; a retryable failure below the limit is retried with count + 1, at the limit it goes to the dead letter state; a non-retryable failure fails; cancellation cancels |
| TaskConsumption.DispatchOfExecutionResult | AINovalServer/src/main/java/com/ainovel/server/task/consumer/TaskConsumer.java:243-261 | for an execution result: complete iff success, retry iff retryable below the limit, dead letter iff retryable at the limit, fail iff a non-retryable failure, and never cancel or crash |
| TaskConsumption.Process | AINovalServer/src/main/java/com/ainovel/server/task/consumer/TaskConsumer.java:214-264 | a task another node already runs is skipped; an unknown task type fails with IllegalArgumentException naming the type; otherwise the result is dispatched |
| TaskConsumption.RetriesStopAtLimit | AINovalServer/src/main/java/com/ainovel/server/task/consumer/TaskConsumer.java:246-251 | a retryable task is retried at most maxRetryAttempts times and then dead-lettered |
| TaskConsumption.CreateErrorInfoMap | AINovalServer/src/main/java/com/ainovel/server/task/consumer/TaskConsumer.java:472-498 | the details hold the message, class and timestamp, up to ten stack frames when there are any, and the cause's message and class when there is a cause, and nothing else |
| TaskConsumption.DeadLetterErrorInfo | AINovalServer/src/main/java/com/ainovel/server/task/consumer/TaskConsumer.java:394-400 | the dead letter details are exactly createErrorInfoMap's entries (message, class, timestamp, up to ten frames, cause) plus "deadLetterReason" = "达到最大重试次数" |
| TaskConsumption.TaskConsumer.constructor | AINovalServer/src/main/java/com/ainovel/server/task/consumer/TaskConsumer.java:62-67 | the consumer starts with the configured retry limit and no delays read yet |
| TaskConsumption.TaskConsumer.InitRetryDelays | AINovalServer/src/main/java/com/ainovel/server/task/consumer/TaskConsumer.java:108-123 | a missing setting is an IllegalStateException; otherwise one delay per comma-separated entry, parsed in order, or a NumberFormatException when an entry does not parse |
| TaskConsumption.TaskConsumer.FillRetryDelays | AINovalServer/src/main/java/com/ainovel/server/task/consumer/TaskConsumer.java:118-122 | the parse loop fills one slot per entry with the entry's value, and fails exactly when some entry does not parse |
| TaskConsumption.TaskConsumer.GetRetryDelay | AINovalServer/src/main/java/com/ainovel/server/task/consumer/TaskConsumer.java:458-464 | getRetryDelay reads the configured delays by the same rule as DelayFor |
| TaskSubmission.QueuedTask | AINovalServer/src/main/java/com/ainovel/server/task/service/impl/TaskSubmissionServiceImpl.java:63-75 | the stored task is queued with no retries, the given parent, and a timestamps map holding only its creation time |
| TaskSubmission.FailedSend | AINovalServer/src/main/java/com/ainovel/server/task/service/impl/TaskSubmissionServiceImpl.java:90-100 | a failed send marks the task failed with its error details and fails the call with RuntimeException "发送任务消息失败" and the cause |
| TaskSubmission.SubmitAsWritten | AINovalServer/src/main/java/com/ainovel/server/task/service/impl/TaskSubmissionServiceImpl.java:86-101 | as written, the submission fails only when sendTask throws; a send that returns false is accepted |
| TaskSubmission.UnsentTaskReportedSubmitted | AINovalServer/src/main/java/com/ainovel/server/task/service/impl/TaskSubmissionServiceImpl.java:86-101 | as written, a broker failure reported by sendTask's false result leaves the task queued and the submission reported as accepted, although nothing was sent |
| TaskSubmission.Submit | AINovalServer/src/main/java/com/ainovel/server/task/service/impl/TaskSubmissionServiceImpl.java:86-101 | corrected: the submission is accepted with the task id exactly when the message was sent; any other outcome marks the task failed and fails with a RuntimeException |
| TaskSubmission.SubmitDiffersOnlyWhenNotSent | AINovalServer/src/main/java/com/ainovel/server/task/service/impl/TaskSubmissionServiceImpl.java:86-101 | the correction agrees with the code as written on every outcome except a send that reports false |
| TaskSubmission.TimestampsNode | AINovalServer/src/main/java/com/ainovel/server/task/service/impl/TaskSubmissionServiceImpl.java:272-280 | the response's timestamps hold the task's keys, each with its instant |
| TaskSubmission.StampAt | AINovalServer/src/main/java/com/ainovel/server/task/service/impl/TaskSubmissionServiceImpl.java:283-291 | createdAt, startedAt and completedAt are present exactly when their key is stored |
| TaskSubmission.Present | AINovalServer/src/main/java/com/ainovel/server/task/service/impl/TaskSubmissionServiceImpl.java:304-314 | result, parameters and progress are shown exactly when they are not null |
| TaskSubmission.ErrorMessageOf | AINovalServer/src/main/java/com/ainovel/server/task/service/impl/TaskSubmissionServiceImpl.java:294-302 | errorMessage is shown exactly when the error details hold a non-null message, as that message's text |
| TaskSubmission.TaskResponse | AINovalServer/src/main/java/com/ainovel/server/task/service/impl/TaskSubmissionServiceImpl.java:265-327 | the view carries id, user, status name and retry count, the timestamps' keys, startedAt iff "running" was stamped, completedAt iff "completed" was, and a result iff there is one |
| TaskSubmission.StartAndCompletionShown | AINovalServer/src/main/java/com/ainovel/server/task/service/impl/TaskSubmissionServiceImpl.java:283-291 | after a task starts or completes, its view shows the time of that change |
| TaskSubmission.FailedSubmissionShowsError | AINovalServer/src/main/java/com/ainovel/server/task/service/impl/TaskSubmissionServiceImpl.java:90-97 | a submission whose send threw shows "消息发送失败: " plus the exception's message |
| TaskSubmission.TaskSubmissionService.constructor | AINovalServer/src/main/java/com/ainovel/server/task/service/impl/TaskSubmissionServiceImpl.java:42-55 | the service uses the given repository |
| TaskSubmission.TaskSubmissionService.SubmitTask | AINovalServer/src/main/java/com/ainovel/server/task/service/impl/TaskSubmissionServiceImpl.java:57-128 | a null user, task type or parameters fails with its NullPointerException message and stores nothing; otherwise the queued task is stored and submitted as written: only an exception from the send fails the call and the stored task, a false send leaves it queued and reported accepted |
| TaskSubmission.TaskSubmissionService.SaveAndSend | AINovalServer/src/main/java/com/ainovel/server/task/service/impl/TaskSubmissionServiceImpl.java:77-101 | the stored task and the result are those of SubmitAsWritten on the queued task: the task id on any send that did not throw, the failed task and a RuntimeException on a thrown one |
| TaskSubmission.TaskSubmissionService.MarkSendFailed | AINovalServer/src/main/java/com/ainovel/server/task/service/impl/TaskSubmissionServiceImpl.java:90-100 | the error details and the failed status are set on the task, which is saved again, and the call fails |
| TaskSubmission.TaskSubmissionService.GetTaskStatus | AINovalServer/src/main/java/com/ainovel/server/task/service/impl/TaskSubmissionServiceImpl.java:148-157 | a stored task gives its view and an unknown id gives nothing |
| TaskSubmission.TaskSubmissionService.GetTaskStatusOfUser | AINovalServer/src/main/java/com/ainovel/server/task/service/impl/TaskSubmissionServiceImpl.java:160-171 | the view is given only when the task is stored and belongs to the user |
| TaskSubmission.TaskSubmissionService.CancelTask | AINovalServer/src/main/java/com/ainovel/server/task/service/impl/TaskSubmissionServiceImpl.java:174-261 | only a stored queued, running or retrying task (of the owner, when one is named) is cancelled, with the time under "cancelled"; otherwise nothing changes |
| Aggregation.ProcessedEventIds.constructor | AINovalServer/src/main/java/com/ainovel/server/task/listener/StateAggregatorService.java:32 | no event id has been processed yet |
| Aggregation.ProcessedEventIds.CheckAndMark | AINovalServer/src/main/java/com/ainovel/server/task/listener/StateAggregatorService.java:193-195 | only the first call with an id answers true, and every call leaves the id marked |
| Aggregation.ParentOf | AINovalServer/src/main/java/com/ainovel/server/task/listener/NextSummariesStateAggregator.java:58-69 | a parent is found only for a stored child naming a non-empty parent id that is stored too |
| Aggregation.ClassTag | AINovalServer/src/main/java/com/ainovel/server/task/listener/NextSummariesStateAggregator.java:173 | an object's class is read from the "_class" entry of its stored document |
| Aggregation.IntField | AINovalServer/src/main/java/com/ainovel/server/task/listener/NextSummariesStateAggregator.java:186-188 | an int property of a stored object is the number stored under its name |
| Aggregation.ProgressRecorded | AINovalServer/src/main/java/com/ainovel/server/task/listener/NextSummariesStateAggregator.java:196 | only a running task takes the progress; any other repository state is left unchanged |
| Aggregation.FinalStatus | AINovalServer/src/main/java/com/ainovel/server/task/listener/NextSummariesStateAggregator.java:266-268 | the final status is COMPLETED when nothing failed, COMPLETED_WITH_ERRORS when some failed and some succeeded, FAILED when only failures were counted |
| Aggregation.CompletedAs | AINovalServer/src/main/java/com/ainovel/server/task/listener/NextSummariesStateAggregator.java:271-280 | the completed task has the final status and the result, the completion and final-status times, and every other time kept |
| Aggregation.CompletionRecorded | AINovalServer/src/main/java/com/ainovel/server/task/listener/NextSummariesStateAggregator.java:271-280 | only a running task completes, with the final status and result; any other repository state is left unchanged |
| Aggregation.SaveWithStatus | AINovalServer/src/main/java/com/ainovel/server/task/listener/NextSummariesStateAggregator.java:278-279 | setting a status and saving changes only the status and its time in the stored task |
| Aggregation.CompleteAs | AINovalServer/src/main/java/com/ainovel/server/task/listener/NextSummariesStateAggregator.java:271-280 | recordCompletion followed by setStatus and save leaves exactly the completion recorded with the final status; the task leaves the local set |
| BatchSummaryAggregation.ProgressRoundTrip | AINovalServer/src/main/java/com/ainovel/server/task/listener/BatchSummaryStateAggregator.java:180-181 | a stored batch progress object is recognised and reads back as itself |
| BatchSummaryAggregation.ResultRoundTrip | AINovalServer/src/main/java/com/ainovel/server/task/listener/BatchSummaryStateAggregator.java:196-197 | a stored batch result object is recognised and reads back as itself |
| BatchSummaryAggregation.NextProgress | AINovalServer/src/main/java/com/ainovel/server/task/listener/BatchSummaryStateAggregator.java:209-251 | each report adds one processed child and exactly one of success, failure or conflict, chosen by the report; total and skipped are kept |
| BatchSummaryAggregation.FailedSceneRecorded | AINovalServer/src/main/java/com/ainovel/server/task/listener/BatchSummaryStateAggregator.java:233-240 | a failure with a known scene is recorded under that scene; no other failed-scene entry, total or skip count changes |
| BatchSummaryAggregation.FreshParentStartsInStep | AINovalServer/src/main/java/com/ainovel/server/task/listener/BatchSummaryStateAggregator.java:179-207 | a parent with neither progress nor result starts from zero counters with the result in step with the progress |
| BatchSummaryAggregation.ReportKeepsInStep | AINovalServer/src/main/java/com/ainovel/server/task/listener/BatchSummaryStateAggregator.java:209-261 | each report keeps the progress tallied and the result's counters equal to the progress's |
| BatchSummaryAggregation.FinishedStaysFinished | AINovalServer/src/main/java/com/ainovel/server/task/listener/BatchSummaryStateAggregator.java:270 | once processed plus skipped children reach the total, the batch stays finished whatever is reported next |
| BatchSummaryAggregation.BatchFinalStatus | AINovalServer/src/main/java/com/ainovel/server/task/listener/BatchSummaryStateAggregator.java:281-288 | FAILED when failures but no success or conflict were counted, COMPLETED_WITH_ERRORS when some failed and some did not, COMPLETED when none failed |
| BatchSummaryAggregation.BatchRuleIsSharedRule | AINovalServer/src/main/java/com/ainovel/server/task/listener/BatchSummaryStateAggregator.java:281-288 | with non-negative counters the batch rule is the other aggregators' rule, counting conflicts as successes |
| BatchSummaryAggregation.StoredStatusAsWritten | AINovalServer/src/main/java/com/ainovel/server/task/listener/BatchSummaryStateAggregator.java:292-298 | as written, a completed-with-errors batch is stored by recordCompletion as COMPLETED; an all-failed batch is a dead letter |
| BatchSummaryAggregation.PartialFailureStoredAsCompleted | AINovalServer/src/main/java/com/ainovel/server/task/listener/BatchSummaryStateAggregator.java:281-298 | as written, a batch of two with one success and one failure is finished with final status COMPLETED_WITH_ERRORS but stored as COMPLETED |
| BatchSummaryAggregation.StoredStatus | AINovalServer/src/main/java/com/ainovel/server/task/listener/BatchSummaryStateAggregator.java:281-298 | corrected: the final status is stored as computed, and an all-failed batch is a dead letter |
| BatchSummaryAggregation.StoredStatusShowsFailures | AINovalServer/src/main/java/com/ainovel/server/task/listener/BatchSummaryStateAggregator.java:281-298 | with the correction, the stored status is COMPLETED exactly when nothing failed, COMPLETED_WITH_ERRORS exactly when some failed and some did not, and a dead letter exactly when all failed |
| BatchSummaryAggregation.ParentAfter | AINovalServer/src/main/java/com/ainovel/server/task/listener/BatchSummaryStateAggregator.java:176-305 | recording a child's report adds or removes no task and changes no task but the parent |
| BatchSummaryAggregation.DeadLettered | AINovalServer/src/main/java/com/ainovel/server/task/listener/BatchSummaryStateAggregator.java:294-297 | recording the failure as a dead letter marks the parent DEAD_LETTER with the error information and changes no other task |
| BatchSummaryAggregation.Settled | AINovalServer/src/main/java/com/ainovel/server/task/listener/BatchSummaryStateAggregator.java:281-298 | settling a finished batch adds or removes no task and changes no task but the parent |
| BatchSummaryAggregation.FinishingReportSettlesParent | AINovalServer/src/main/java/com/ainovel/server/task/listener/BatchSummaryStateAggregator.java:270-304 | a running parent that this report finishes is stored, as written, COMPLETED or a dead letter, whatever the computed final status |
| BatchSummaryAggregation.UnfinishedParentKeepsStatus | AINovalServer/src/main/java/com/ainovel/server/task/listener/BatchSummaryStateAggregator.java:264-271 | a report that does not finish the batch only records progress; the parent keeps its status |
| BatchSummaryAggregation.CastToString | AINovalServer/src/main/java/com/ainovel/server/task/listener/BatchSummaryStateAggregator.java:147-154 | a String cast keeps a string and fails on any other non-null value |
| BatchSummaryAggregation.FailedEntry | AINovalServer/src/main/java/com/ainovel/server/task/listener/BatchSummaryStateAggregator.java:141-161 | a failure's scene entry pairs the child's "sceneId" parameter with the error message, or "未知错误" when there is none; without error details there is no entry |
| BatchSummaryAggregation.BatchParent | AINovalServer/src/main/java/com/ainovel/server/task/listener/BatchSummaryStateAggregator.java:45-77 | only a GENERATE_SUMMARY child's event concerns a parent, and then only a batch parent the child names |
| BatchSummaryAggregation.BatchSummaryStateAggregator.constructor | AINovalServer/src/main/java/com/ainovel/server/task/listener/BatchSummaryStateAggregator.java:30-32 | the aggregator starts with no processed event |
| BatchSummaryAggregation.BatchSummaryStateAggregator.OnSummaryTaskCompleted | AINovalServer/src/main/java/com/ainovel/server/task/listener/BatchSummaryStateAggregator.java:39-100 | a first delivery of a summary child's success moves its batch parent; a repeated event or one without a batch parent changes no task; the event is marked processed |
| BatchSummaryAggregation.BatchSummaryStateAggregator.OnSummaryTaskFailed | AINovalServer/src/main/java/com/ainovel/server/task/listener/BatchSummaryStateAggregator.java:102-174 | a first delivery of a summary child's failure counts it, with its scene when known; anything else changes no task; the event is marked processed |
| BatchSummaryAggregation.BatchSummaryStateAggregator.UpdateParentTaskProgress | AINovalServer/src/main/java/com/ainovel/server/task/listener/BatchSummaryStateAggregator.java:176-305 | the moved counters are recorded and the parent is settled when the batch is finished |
| BatchSummaryAggregation.BatchSummaryStateAggregator.Settle | AINovalServer/src/main/java/com/ainovel/server/task/listener/BatchSummaryStateAggregator.java:281-303 | as written, a finished batch is stored COMPLETED through recordCompletion, even with failures, and an all-failed one becomes a dead letter; the parent leaves the local set |
| NextSummariesAggregation.ProgressRoundTrip | AINovalServer/src/main/java/com/ainovel/server/task/listener/NextSummariesStateAggregator.java:173-174 | a stored next-summaries progress object is recognised and reads back as itself |
| NextSummariesAggregation.NextProgress | AINovalServer/src/main/java/com/ainovel/server/task/listener/NextSummariesStateAggregator.java:185-193 | a success adds one completed, a failure one failed, the current index becomes the reported chapter and the total is kept |
| NextSummariesAggregation.ReportsUntilFinished | AINovalServer/src/main/java/com/ainovel/server/task/listener/NextSummariesStateAggregator.java:203 | from a progress with total - done reports to go, exactly that many reports finish the parent and one fewer does not |
| NextSummariesAggregation.ReplayCounts | AINovalServer/src/main/java/com/ainovel/server/task/listener/NextSummariesStateAggregator.java:185-193 | each report adds one to completed + failed and leaves the total alone |
| NextSummariesAggregation.CollectedIdsComeFromChildren | AINovalServer/src/main/java/com/ainovel/server/task/listener/NextSummariesStateAggregator.java:226-237 | every collected new chapter id comes from a completed child's single-summary result |
| NextSummariesAggregation.ChildIdsCollected | AINovalServer/src/main/java/com/ainovel/server/task/listener/NextSummariesStateAggregator.java:226-237 | every completed child's new chapter id is collected |
| NextSummariesAggregation.AtMostOneIdPerChild | AINovalServer/src/main/java/com/ainovel/server/task/listener/NextSummariesStateAggregator.java:226-237 | no more ids are collected than there are children |
| NextSummariesAggregation.FailedStepsCountFailures | AINovalServer/src/main/java/com/ainovel/server/task/listener/NextSummariesStateAggregator.java:252-258 | one failed step is listed per failed child |
| NextSummariesAggregation.FinalResult | AINovalServer/src/main/java/com/ainovel/server/task/listener/NextSummariesStateAggregator.java:216-268 | the result's status is the name of the final status given to the parent, its count the completed summaries, its ids those collected, and failed steps are listed only when something failed |
| NextSummariesAggregation.FinishingReportSettlesParent | AINovalServer/src/main/java/com/ainovel/server/task/listener/NextSummariesStateAggregator.java:196-210 | a report that finishes a running parent leaves it with the final status |
| NextSummariesAggregation.StoppedParentUntouched | AINovalServer/src/main/java/com/ainovel/server/task/listener/NextSummariesStateAggregator.java:196-200 | a parent that is not running is left untouched, finished or not |
| NextSummariesAggregation.FailedChapterIndex | AINovalServer/src/main/java/com/ainovel/server/task/listener/NextSummariesStateAggregator.java:130-136 | a failed child with null parameters reports chapter index 0 |
| NextSummariesAggregation.NextSummariesStateAggregator.constructor | AINovalServer/src/main/java/com/ainovel/server/task/listener/NextSummariesStateAggregator.java:35-37 | the aggregator starts with no processed event |
| NextSummariesAggregation.NextSummariesStateAggregator.OnSingleSummaryTaskCompleted | AINovalServer/src/main/java/com/ainovel/server/task/listener/NextSummariesStateAggregator.java:45-94 | a first delivery of a single-summary child's success, carrying a single-summary result, moves its parent at the result's index; anything else changes no task; the event is marked processed |
| NextSummariesAggregation.NextSummariesStateAggregator.OnSingleSummaryTaskFailed | AINovalServer/src/main/java/com/ainovel/server/task/listener/NextSummariesStateAggregator.java:101-157 | a first delivery of a single-summary child's failure moves its parent at the child's chapterIndex parameter; anything else changes no task |
| NextSummariesAggregation.NextSummariesStateAggregator.UpdateParentTaskProgress | AINovalServer/src/main/java/com/ainovel/server/task/listener/NextSummariesStateAggregator.java:166-211 | the progress is recorded; the parent is finalised once completed plus failed reach the total |
| NextSummariesAggregation.NextSummariesStateAggregator.UpdateTaskFinalState | AINovalServer/src/main/java/com/ainovel/server/task/listener/NextSummariesStateAggregator.java:216-281 | the parent completes with the collected result and then takes the final status |
| NextSummariesAggregation.CollectNewChapterIds | AINovalServer/src/main/java/com/ainovel/server/task/listener/NextSummariesStateAggregator.java:226-237 | the collecting loop yields exactly the children's new chapter ids, in order |
| NextSummariesAggregation.CollectFailedSteps | AINovalServer/src/main/java/com/ainovel/server/task/listener/NextSummariesStateAggregator.java:252-258 | the collecting loop yields exactly the failed children's steps, in order |
| NovelModel.AllChaptersSnoc | AINovalServer/src/main/java/com/ainovel/server/task/listener/ContinueWritingStateAggregator.java:456-459 | gathering one more act appends its chapters |
| NovelModel.ActChapterInAll | AINovalServer/src/main/java/com/ainovel/server/task/listener/ContinueWritingStateAggregator.java:456-459 | every chapter of every act is among the gathered chapters |
| NovelModel.AllChaptersAppend | AINovalServer/src/main/java/com/ainovel/server/task/listener/ContinueWritingStateAggregator.java:456-459 | the chapters of two runs of acts are gathered one after the other |
| NovelModel.FirstWithId | AINovalServer/src/main/java/com/ainovel/server/task/listener/ContinueWritingStateAggregator.java:493-502 | the chapter found has the id and is one of the chapters; none is found exactly when no chapter has the id |
| NovelModel.FirstWithIdAppend | AINovalServer/src/main/java/com/ainovel/server/task/listener/ContinueWritingStateAggregator.java:493-502 | a search over two runs finds in the first run before looking in the second |
| NovelModel.IndexOfId | AINovalServer/src/main/java/com/ainovel/server/task/listener/ContinueWritingStateAggregator.java:465-471 | the index is -1 exactly when no chapter has the id, and otherwise the first chapter with it |
| NovelModel.InsertByOrder | AINovalServer/src/main/java/com/ainovel/server/task/listener/ContinueWritingStateAggregator.java:462 | inserting one chapter adds exactly that chapter |
| NovelModel.SortByOrder | AINovalServer/src/main/java/com/ainovel/server/task/listener/ContinueWritingStateAggregator.java:462 | the sort yields a permutation of the chapters |
| NovelModel.InsertKeepsSorted | AINovalServer/src/main/java/com/ainovel/server/task/listener/ContinueWritingStateAggregator.java:462 | inserting into chapters sorted by order keeps them sorted |
| NovelModel.SortByOrderSorted | AINovalServer/src/main/java/com/ainovel/server/task/listener/ContinueWritingStateAggregator.java:462 | the sort yields the chapters in non-decreasing order |
| NovelModel.InsertAfterEqualOrders | AINovalServer/src/main/java/com/ainovel/server/task/listener/ContinueWritingStateAggregator.java:462 | an inserted chapter lands after every chapter of its own order already there |
| NovelModel.SortByOrderStable | AINovalServer/src/main/java/com/ainovel/server/task/listener/ContinueWritingStateAggregator.java:462 | the sort is stable, as List.sort is: for every order value, the chapters of that order come out in the order they went in |
| ContinueWritingAggregation.StrField | AINovalServer/src/main/java/com/ainovel/server/task/listener/ContinueWritingStateAggregator.java:109-114 | a string property of a stored parameters or progress object is present exactly when the object holds a string under that name |
| ContinueWritingAggregation.ProgressRoundTrip | AINovalServer/src/main/java/com/ainovel/server/task/listener/ContinueWritingStateAggregator.java:113-114 | a stored continue-writing progress object is recognised and reads back as itself |
| ContinueWritingAggregation.ParametersOf | AINovalServer/src/main/java/com/ainovel/server/task/listener/ContinueWritingStateAggregator.java:109 | the parent's parameters are read only from a ContinueWritingContentParameters object |
| ContinueWritingAggregation.TruncDiv | AINovalServer/src/main/java/com/ainovel/server/task/listener/ContinueWritingStateAggregator.java:364 | Java's int cast of a quotient rounds toward zero, which for non-negative operands is floor division |
| ContinueWritingAggregation.Saturate | AINovalServer/src/main/java/com/ainovel/server/task/listener/ContinueWritingStateAggregator.java:364 | Java's (int) cast of a double saturates to the int range and keeps values already inside it |
| ContinueWritingAggregation.CastQuotient | AINovalServer/src/main/java/com/ainovel/server/task/listener/ContinueWritingStateAggregator.java:364 | the cast quotient (completed + failed) * 50.0 / total always lies in the int range |
| ContinueWritingAggregation.PercentAsWritten | AINovalServer/src/main/java/com/ainovel/server/task/listener/ContinueWritingStateAggregator.java:364-365 | as written, the stored percent never exceeds 100 |
| ContinueWritingAggregation.ZeroTotalPercentWraps | AINovalServer/src/main/java/com/ainovel/server/task/listener/ContinueWritingStateAggregator.java:343-365 | as written, a report against a total of 0, which a parent without progress starts with, stores the percent -2147483599 |
| ContinueWritingAggregation.Percent | AINovalServer/src/main/java/com/ainovel/server/task/listener/ContinueWritingStateAggregator.java:364-365 | corrected: the percent never exceeds 100 |
| ContinueWritingAggregation.PercentInRange | AINovalServer/src/main/java/com/ainovel/server/task/listener/ContinueWritingStateAggregator.java:364-365 | with non-negative counts the corrected percent lies within 50..100 and is 100 exactly when every chapter is accounted for |
| ContinueWritingAggregation.PercentAgreesWithinTotal | AINovalServer/src/main/java/com/ainovel/server/task/listener/ContinueWritingStateAggregator.java:364-365 | for a positive total the counts have not passed, the percent as written and as corrected agree |
| ContinueWritingAggregation.NextContentProgress | AINovalServer/src/main/java/com/ainovel/server/task/listener/ContinueWritingStateAggregator.java:339-369 | a success adds one content, a failure one failure; the current index becomes the reported chapter; the percent is recomputed as written, in 32-bit int arithmetic (PercentAsWritten, which wraps for a zero total); stage, total and summaries are kept |
| ContinueWritingAggregation.ReportedPercent | AINovalServer/src/main/java/com/ainovel/server/task/listener/ContinueWritingStateAggregator.java:361-375 | a report to a parent with a positive int total that it had not finished stores a percent within 50..100 that is 100 exactly when the report finishes the parent |
| ContinueWritingAggregation.ReplayContentCounts | AINovalServer/src/main/java/com/ainovel/server/task/listener/ContinueWritingStateAggregator.java:354-358 | each report adds one to contents + failures and keeps the total |
| ContinueWritingAggregation.ContentReportsUntilFinished | AINovalServer/src/main/java/com/ainovel/server/task/listener/ContinueWritingStateAggregator.java:375 | from a progress with n chapters to go, the n-th report finishes the parent and none before it does |
| ContinueWritingAggregation.GeneratedChapterOf | AINovalServer/src/main/java/com/ainovel/server/task/listener/ContinueWritingStateAggregator.java:401-411 | each child contributes at most one generated chapter |
| ContinueWritingAggregation.AtMostOneChapterPerChild | AINovalServer/src/main/java/com/ainovel/server/task/listener/ContinueWritingStateAggregator.java:398-411 | no more chapters are collected than there are children |
| ContinueWritingAggregation.ChildChapterCollected | AINovalServer/src/main/java/com/ainovel/server/task/listener/ContinueWritingStateAggregator.java:398-411 | every chapter a child contributes is collected |
| ContinueWritingAggregation.FinalResult | AINovalServer/src/main/java/com/ainovel/server/task/listener/ContinueWritingStateAggregator.java:387-434 | the result's status names the parent's final status; it succeeds unless the parent fails; it carries an error message exactly when something failed, the counts, and the collected chapters |
| ContinueWritingAggregation.FinishingContentReportSettlesParent | AINovalServer/src/main/java/com/ainovel/server/task/listener/ContinueWritingStateAggregator.java:372-381 | a report that finishes a running parent leaves it with the final status |
| ContinueWritingAggregation.UnfinishedContentReportKeepsRunning | AINovalServer/src/main/java/com/ainovel/server/task/listener/ContinueWritingStateAggregator.java:372-381 | a report that does not finish a running parent keeps it running with the new progress |
| ContinueWritingAggregation.StoppedContentParentUntouched | AINovalServer/src/main/java/com/ainovel/server/task/listener/ContinueWritingStateAggregator.java:372 | a parent that is not running is left untouched, finished or not |
| ContinueWritingAggregation.EntryText | AINovalServer/src/main/java/com/ainovel/server/task/listener/ContinueWritingStateAggregator.java:482-484 | each previous chapter is listed as a non-empty "第<order>章：" entry |
| ContinueWritingAggregation.ContextTextEmpty | AINovalServer/src/main/java/com/ainovel/server/task/listener/ContinueWritingStateAggregator.java:480-487 | the context text is empty exactly when no chapter is listed |
| ContinueWritingAggregation.ContextChapters | AINovalServer/src/main/java/com/ainovel/server/task/listener/ContinueWritingStateAggregator.java:479-485 | at most two previous chapters are listed |
| ContinueWritingAggregation.ContextPrecedesChapter | AINovalServer/src/main/java/com/ainovel/server/task/listener/ContinueWritingStateAggregator.java:452-488 | the listed chapters belong to the novel, and the chapter the context is for is found; none of them has a greater order than that chapter |
| ContinueWritingAggregation.ContextEmptyIffFirstOrMissing | AINovalServer/src/main/java/com/ainovel/server/task/listener/ContinueWritingStateAggregator.java:473-487 | the context is empty exactly when the chapter is missing or comes first in order |
| ContinueWritingAggregation.RequestFor | AINovalServer/src/main/java/com/ainovel/server/task/listener/ContinueWritingStateAggregator.java:161-193 | a new chapter id gets one content request exactly when the novel holds a chapter with that id, naming its index, the chapter's order, the parent and its user |
| ContinueWritingAggregation.RequestsMatchIds | AINovalServer/src/main/java/com/ainovel/server/task/listener/ContinueWritingStateAggregator.java:161-193 | every content request names one of the ids by its index, for a chapter the novel holds, at that chapter's order |
| ContinueWritingAggregation.FoundIdRequested | AINovalServer/src/main/java/com/ainovel/server/task/listener/ContinueWritingStateAggregator.java:161-193 | every new id whose chapter the novel holds gets a request |
| ContinueWritingAggregation.SummariesRequests | AINovalServer/src/main/java/com/ainovel/server/task/listener/ContinueWritingStateAggregator.java:128-139 | a parent that requires review submits no content tasks |
| ContinueWritingAggregation.SummariesPhaseProgress | AINovalServer/src/main/java/com/ainovel/server/task/listener/ContinueWritingStateAggregator.java:112-143 | after the summaries phase the stage is WAITING_FOR_REVIEW or GENERATING_CONTENT as the parameters ask, the summaries count is recorded, the percent is 50, and a fresh progress takes its total from the parameters |
| ContinueWritingAggregation.ContinueParent | AINovalServer/src/main/java/com/ainovel/server/task/listener/ContinueWritingStateAggregator.java:76-95 | a child concerns only a parent it names that is a CONTINUE_WRITING_CONTENT task |
| ContinueWritingAggregation.SummariesTarget | AINovalServer/src/main/java/com/ainovel/server/task/listener/ContinueWritingStateAggregator.java:57-109 | a next-summaries event moves a parent only when it carries a next-summaries result and the parent's parameters are continue-writing parameters |
| ContinueWritingAggregation.FailedContentIndex | AINovalServer/src/main/java/com/ainovel/server/task/listener/ContinueWritingStateAggregator.java:305-311 | a failed content child reports a chapter index exactly when its parameters are GenerateChapterContentParameters |
| ContinueWritingAggregation.ContinueWritingStateAggregator.constructor | AINovalServer/src/main/java/com/ainovel/server/task/listener/ContinueWritingStateAggregator.java:44-50 | the aggregator starts with no processed event |
| ContinueWritingAggregation.ContinueWritingStateAggregator.OnNextSummariesTaskCompleted | AINovalServer/src/main/java/com/ainovel/server/task/listener/ContinueWritingStateAggregator.java:57-196 | a first delivery of a summaries child's success records the summaries-phase progress and submits the content requests; anything else changes nothing |
| ContinueWritingAggregation.ContinueWritingStateAggregator.OnChapterContentTaskCompleted | AINovalServer/src/main/java/com/ainovel/server/task/listener/ContinueWritingStateAggregator.java:203-255 | a first delivery of a content child's success, with a content result, moves its parent at the result's index; anything else changes no task |
| ContinueWritingAggregation.ContinueWritingStateAggregator.OnChapterContentTaskFailed | AINovalServer/src/main/java/com/ainovel/server/task/listener/ContinueWritingStateAggregator.java:262-330 | a first delivery of a content child's failure moves its parent at the child's chapter index; a child with other parameters is ignored; a "message" entry that is null throws a NullPointerException before the parent is touched (the event stays marked) |
| ContinueWritingAggregation.ContinueWritingStateAggregator.UpdateContentProgress | AINovalServer/src/main/java/com/ainovel/server/task/listener/ContinueWritingStateAggregator.java:335-382 | the progress, with the percent as written, is recorded and the parent finalised once every chapter is accounted for |
| ContinueWritingAggregation.ContinueWritingStateAggregator.UpdateTaskFinalState | AINovalServer/src/main/java/com/ainovel/server/task/listener/ContinueWritingStateAggregator.java:387-447 | the parent completes with the collected result and then takes the final status |
| ContinueWritingAggregation.CollectGeneratedChapters | AINovalServer/src/main/java/com/ainovel/server/task/listener/ContinueWritingStateAggregator.java:398-411 | the collecting loop yields exactly the children's generated chapters, in order |
| ContinueWritingAggregation.RequestContent | AINovalServer/src/main/java/com/ainovel/server/task/listener/ContinueWritingStateAggregator.java:161-194 | the submission loop yields exactly the requests for the new ids the novel holds, in order |
| ContinueWritingAggregation.FindChapterById | AINovalServer/src/main/java/com/ainovel/server/task/listener/ContinueWritingStateAggregator.java:493-502 | the nested search loop returns the first chapter with the id over all acts, or none |
| ContinueWritingAggregation.GetChapterContext | AINovalServer/src/main/java/com/ainovel/server/task/listener/ContinueWritingStateAggregator.java:452-488 | getChapterContext returns the text listing up to two chapters before the chapter, in order |
| ContinueWritingAggregation.GatherChapters | AINovalServer/src/main/java/com/ainovel/server/task/listener/ContinueWritingStateAggregator.java:456-459 | the gathering loop yields every act's chapters, act by act |
| ContinueWritingAggregation.FindIndex | AINovalServer/src/main/java/com/ainovel/server/task/listener/ContinueWritingStateAggregator.java:465-471 | the search loop returns the index of the first chapter with the id, or -1 |
| ContinueWritingAggregation.ListChapters | AINovalServer/src/main/java/com/ainovel/server/task/listener/ContinueWritingStateAggregator.java:480-485 | the listing loop yields one entry per listed chapter |
| BatchSummaryExecution.OrderMapHasEveryId | AINovalServer/src/main/java/com/ainovel/server/task/executor/BatchGenerateSummaryTaskExecutable.java:171-182 | every chapter of the novel gets a number |
| BatchSummaryExecution.OrderMapNumbersLast | AINovalServer/src/main/java/com/ainovel/server/task/executor/BatchGenerateSummaryTaskExecutable.java:171-182 | an id is numbered with a position where a chapter with that id stands, and with its last such position, since a later put overwrites |
| BatchSummaryExecution.Ids | AINovalServer/src/main/java/com/ainovel/server/task/executor/BatchGenerateSummaryTaskExecutable.java:187-201 | the listed ids are the chapters' ids, position by position |
| BatchSummaryExecution.IdsInRangeIsSlice | AINovalServer/src/main/java/com/ainovel/server/task/executor/BatchGenerateSummaryTaskExecutable.java:187-201 | the chapters in range are those whose position lies from the start order to the end order inclusive |
| BatchSummaryExecution.RangeIsInclusive | AINovalServer/src/main/java/com/ainovel/server/task/executor/BatchGenerateSummaryTaskExecutable.java:187-201 | with both orders inside the novel, the range holds end - start + 1 chapters, both ends included |
| BatchSummaryExecution.ChapterRange | AINovalServer/src/main/java/com/ainovel/server/task/executor/BatchGenerateSummaryTaskExecutable.java:50-76 | a missing novel is refused with "小说不存在: " and its id; a novel of another author with "无权访问该小说" |
| BatchSummaryExecution.AcceptedRangeSpansStartToEnd | AINovalServer/src/main/java/com/ainovel/server/task/executor/BatchGenerateSummaryTaskExecutable.java:62-76 | an accepted range is non-empty and starts with the start chapter and ends with the end chapter |
| BatchSummaryExecution.UnknownChapterRefused | AINovalServer/src/main/java/com/ainovel/server/task/executor/BatchGenerateSummaryTaskExecutable.java:62-65 | a start chapter the novel does not hold is refused with "章节ID不存在" |
| BatchSummaryExecution.ScenesOfChapters | AINovalServer/src/main/java/com/ainovel/server/task/executor/BatchGenerateSummaryTaskExecutable.java:78-80 | the scenes found belong to the store |
| BatchSummaryExecution.EverySceneAccountedFor | AINovalServer/src/main/java/com/ainovel/server/task/executor/BatchGenerateSummaryTaskExecutable.java:111-139 | every scene is exactly one of skipped, submitted or refused by the submission |
| BatchSummaryExecution.OverwriteSkipsNothing | AINovalServer/src/main/java/com/ainovel/server/task/executor/BatchGenerateSummaryTaskExecutable.java:116 | with overwriting asked for, no scene is skipped |
| BatchSummaryExecution.RequestsAreForKeptScenes | AINovalServer/src/main/java/com/ainovel/server/task/executor/BatchGenerateSummaryTaskExecutable.java:111-133 | every summary child is for a scene that is not skipped and whose submission succeeded, at the scene's version and with the request's AI configuration |
| BatchSummaryExecution.SkippedScenesCountedTwice | AINovalServer/src/main/java/com/ainovel/server/task/executor/BatchGenerateSummaryTaskExecutable.java:141-153 | as written, with three scenes of which one is skipped, the recorded progress is already out of step and the first child's report finishes the parent while the second child still runs |
| BatchSummaryExecution.SkipProgress | AINovalServer/src/main/java/com/ainovel/server/task/executor/BatchGenerateSummaryTaskExecutable.java:141-153 | corrected: the progress after the loop has the skipped scenes as skipped, nothing processed, and stays in step |
| BatchSummaryExecution.ReplayProcessed | AINovalServer/src/main/java/com/ainovel/server/task/executor/BatchGenerateSummaryTaskExecutable.java:141-153 | each child's report adds one processed scene and keeps the total and the skips |
| BatchSummaryExecution.FinishesAfterEverySubmittedChild | AINovalServer/src/main/java/com/ainovel/server/task/executor/BatchGenerateSummaryTaskExecutable.java:141-153 | from the corrected progress, the parent finishes exactly when every submitted child has reported |
| BatchSummaryExecution.SkipProgressInStep | AINovalServer/src/main/java/com/ainovel/server/task/executor/BatchGenerateSummaryTaskExecutable.java:141-165 | the corrected progress agrees with the result the run returns |
| BatchSummaryExecution.RunOver | AINovalServer/src/main/java/com/ainovel/server/task/executor/BatchGenerateSummaryTaskExecutable.java:82-165 | without scenes the run records nothing and returns an empty result; otherwise it first records a zero progress over all scenes, then, exactly when some scene was skipped, the skip progress as written (the skips counted as processed and as skipped), and returns a result with no success, no conflict and one failure per refused submission |
| BatchSummaryExecution.Execute | AINovalServer/src/main/java/com/ainovel/server/task/executor/BatchGenerateSummaryTaskExecutable.java:38-166 | execute refuses exactly the requests the checks refuse, with their messages, and otherwise performs the run over the scenes of the chapters in range |
| BatchSummaryExecution.SubmitScenes | AINovalServer/src/main/java/com/ainovel/server/task/executor/BatchGenerateSummaryTaskExecutable.java:108-139 | the submission loop skips, submits or records the failure of each scene as the specification says |
| BatchSummaryExecution.GetChapterOrderMap | AINovalServer/src/main/java/com/ainovel/server/task/executor/BatchGenerateSummaryTaskExecutable.java:171-182 | the numbering loop numbers the chapters in act order |
| BatchSummaryExecution.GetChapterIdsInRange | AINovalServer/src/main/java/com/ainovel/server/task/executor/BatchGenerateSummaryTaskExecutable.java:187-201 | the range loop keeps the chapters whose position lies in the range, in order |
| SceneService.WithCreateDefaults | AINovalServer/src/main/java/com/ainovel/server/service/impl/SceneServiceImpl.java:63-75 | creation stamps both times with now, sets version 1, turns a missing sequence into 0 and keeps everything else |
| SceneService.WithUpdate | AINovalServer/src/main/java/com/ainovel/server/service/impl/SceneServiceImpl.java:102-122 | an update keeps the stored id and creation time, bumps the version by one, stamps the update time, and takes novel, chapter and sequence from the stored scene wherever the incoming one has none |
| SceneService.UpdateKeepsWellStored | AINovalServer/src/main/java/com/ainovel/server/service/impl/SceneServiceImpl.java:102-124 | updating a scene stored under its own id keeps it stored under that id, with a higher version |
| SceneService.FullUpdateReplacesContent | AINovalServer/src/main/java/com/ainovel/server/service/impl/SceneServiceImpl.java:102-122 | an incoming scene that names novel, chapter and sequence replaces everything but the id, creation time and version |
| SceneService.SelfUpdateBumpsVersionOnly | AINovalServer/src/main/java/com/ainovel/server/service/impl/SceneServiceImpl.java:102-122 | updating a scene with itself changes only the version and the update time |
| SceneService.UpsertedAsWritten | AINovalServer/src/main/java/com/ainovel/server/service/impl/SceneServiceImpl.java:129-139 | as written, an upserted scene always has a sequence and the update time; a stored scene goes up one version but its sequence becomes the incoming one or 0; a new scene has version 1 |
| SceneService.Upserted | AINovalServer/src/main/java/com/ainovel/server/service/impl/SceneServiceImpl.java:129-139 | corrected: a stored scene keeps its id, goes up one version and keeps its stored sequence when none is given; a new scene has version 1 and a sequence |
| SceneService.UpsertLosesStoredSequence | AINovalServer/src/main/java/com/ainovel/server/service/impl/SceneServiceImpl.java:129-139 | as written, upserting a stored scene at sequence 5 without a sequence stores sequence 0, because createScene(scene) runs before the lookup and sets the sequence |
| SceneService.UpsertOfStoredIsUpdate | AINovalServer/src/main/java/com/ainovel/server/service/impl/SceneServiceImpl.java:129-139 | corrected: upserting a stored scene is the update of that scene, so a missing sequence keeps the stored one |
| SceneService.UpsertOfNewIsCreate | AINovalServer/src/main/java/com/ainovel/server/service/impl/SceneServiceImpl.java:129-139 | upserting a scene without an id, with an empty id or with an unknown id creates it at version 1 |
| SceneService.SceneRepository.constructor | AINovalServer/src/main/java/com/ainovel/server/service/impl/SceneServiceImpl.java:22-24 | the repository starts empty |
| SceneService.SceneRepository.FindSceneById | AINovalServer/src/main/java/com/ainovel/server/service/impl/SceneServiceImpl.java:27-30 | findSceneById yields the stored scene, or a ResourceNotFoundException for an unknown id |
| SceneService.SceneRepository.CreateScene | AINovalServer/src/main/java/com/ainovel/server/service/impl/SceneServiceImpl.java:63-77 | createScene saves the scene with the creation defaults under its id or a generated one, and changes no other scene |
| SceneService.SceneRepository.CreateScenes | AINovalServer/src/main/java/com/ainovel/server/service/impl/SceneServiceImpl.java:80-95 | createScenes applies the creation defaults with one shared time to every scene and saves them all in order |
| SceneService.SceneRepository.UpdateScene | AINovalServer/src/main/java/com/ainovel/server/service/impl/SceneServiceImpl.java:98-126 | updateScene fails with ResourceNotFoundException and changes nothing for an unknown id; otherwise it stores and returns the update of the stored scene |
| SceneService.SceneRepository.UpsertScene | AINovalServer/src/main/java/com/ainovel/server/service/impl/SceneServiceImpl.java:129-139 | upsertScene stores the upsert as written under the scene's id or a generated one: a new scene gets the create defaults, a stored one is updated with the incoming scene after those defaults |
| NextSummariesExecution.LastChapter | AINovalServer/src/main/java/com/ainovel/server/task/executor/GenerateNextSummariesOnlyTaskExecutable.java:125-128 | the maximum by order is present exactly when there are chapters; it is one of them and no chapter has a greater order |
| NextSummariesExecution.GreatestAt | AINovalServer/src/main/java/com/ainovel/server/task/executor/GenerateNextSummariesOnlyTaskExecutable.java:99-101 | the position of the chapter the maximum picks lies among the chapters |
| NextSummariesExecution.LastChapterIsFirstOfGreatest | AINovalServer/src/main/java/com/ainovel/server/task/executor/GenerateNextSummariesOnlyTaskExecutable.java:99-101 | the maximum is the chapter at that position, and every chapter before it has a smaller order, so ties go to the first |
| NextSummariesExecution.LastChapterOrder | AINovalServer/src/main/java/com/ainovel/server/task/executor/GenerateNextSummariesOnlyTaskExecutable.java:98-104 | getLastChapterOrder is 0 without chapters, and otherwise the order of some chapter that no chapter exceeds |
| NextSummariesExecution.LastChapterSummary | AINovalServer/src/main/java/com/ainovel/server/task/executor/GenerateNextSummariesOnlyTaskExecutable.java:188-194 | getLastChapterSummary is "" without chapters and otherwise the description of the chapter with the greatest order |
| NextSummariesExecution.Entries | AINovalServer/src/main/java/com/ainovel/server/task/executor/GenerateNextSummariesOnlyTaskExecutable.java:154-160 | the appended context is empty exactly when there is no chapter to list |
| NextSummariesExecution.UnknownModeIsLastChapter | AINovalServer/src/main/java/com/ainovel/server/task/executor/GenerateNextSummariesOnlyTaskExecutable.java:109-120 | a context mode other than LAST_THREE_CHAPTERS and ALL_CHAPTERS reads like LAST_CHAPTER |
| NextSummariesExecution.NoChaptersContext | AINovalServer/src/main/java/com/ainovel/server/task/executor/GenerateNextSummariesOnlyTaskExecutable.java:125-183 | a novel without chapters gives the first-chapter note in the LAST_CHAPTER mode and "" in the other two |
| NextSummariesExecution.LastThreeAreLatest | AINovalServer/src/main/java/com/ainovel/server/task/executor/GenerateNextSummariesOnlyTaskExecutable.java:144-163 | LAST_THREE_CHAPTERS lists as many chapters as there are, up to three, drawn from the novel, and none of smaller order than a chapter it leaves out |
| NextSummariesExecution.LastThreeOfSorted | AINovalServer/src/main/java/com/ainovel/server/task/executor/GenerateNextSummariesOnlyTaskExecutable.java:151-154 | starting at max(0, size - 3) keeps the last three of a sorted list, none of smaller order than those before |
| NextSummariesExecution.SuffixOfSorted | AINovalServer/src/main/java/com/ainovel/server/task/executor/GenerateNextSummariesOnlyTaskExecutable.java:151-154 | a tail of a list sorted by order is drawn from it and holds no chapter of smaller order than one before it |
| NextSummariesExecution.AppendEntries | AINovalServer/src/main/java/com/ainovel/server/task/executor/GenerateNextSummariesOnlyTaskExecutable.java:174-180 | the StringBuilder loop builds exactly the entries of the chapters, in order |
| NextSummariesExecution.GetContextContent | AINovalServer/src/main/java/com/ainovel/server/task/executor/GenerateNextSummariesOnlyTaskExecutable.java:109-120 | getContextContent dispatches on the mode as the context specification says |
| NextSummariesExecution.FirstChild | AINovalServer/src/main/java/com/ainovel/server/task/executor/GenerateNextSummariesOnlyTaskExecutable.java:69-76 | the first child is at chapter index 0 and order one past the last chapter in 32-bit int arithmetic, with the parent's novel and AI configuration, the chosen context and the last chapter's summary |
| NextSummariesExecution.FirstChildFollowsLast | AINovalServer/src/main/java/com/ainovel/server/task/executor/GenerateNextSummariesOnlyTaskExecutable.java:72 | below the int maximum the first child's order exceeds every chapter's; after a chapter of order 2147483647 the int addition wraps to -2147483648 |
| NextSummariesExecution.InitialProgress | AINovalServer/src/main/java/com/ainovel/server/task/executor/GenerateNextSummariesOnlyTaskExecutable.java:51-55 | the parent starts with total = numberOfChapters and nothing completed, failed or current |
| NextSummariesExecution.Execute | AINovalServer/src/main/java/com/ainovel/server/task/executor/GenerateNextSummariesOnlyTaskExecutable.java:40-93 | execute records the initial progress, fails with "找不到小说: " for a missing novel, and otherwise submits the first child, at the last order plus one in int arithmetic, and returns a RUNNING result with nothing generated |
| SingleChapterExecution.DigitRun | AINovalServer/src/main/java/com/ainovel/server/task/executor/GenerateSingleChapterTaskExecutable.java:254 | the run of digits the pattern's digit group takes from a position is all digits and stops before a non-digit |
| SingleChapterExecution.MarkerLen | AINovalServer/src/main/java/com/ainovel/server/task/executor/GenerateSingleChapterTaskExecutable.java:254 | a match of "==== 第<digits>章 ====" at a position stays within the text |
| SingleChapterExecution.Marks | AINovalServer/src/main/java/com/ainovel/server/task/executor/GenerateSingleChapterTaskExecutable.java:254 | the match lengths at every position of the text are well formed |
| SingleChapterExecution.MarksUpToAreMatches | AINovalServer/src/main/java/com/ainovel/server/task/executor/GenerateSingleChapterTaskExecutable.java:254 | the recorded length at each position is the match found there |
| SingleChapterExecution.Pieces | AINovalServer/src/main/java/com/ainovel/server/task/executor/GenerateSingleChapterTaskExecutable.java:254 | splitting at the matches yields at least one piece |
| SingleChapterExecution.ScanWithoutMarker | AINovalServer/src/main/java/com/ainovel/server/task/executor/GenerateSingleChapterTaskExecutable.java:254 | where no match starts, the rest of the text is one piece |
| SingleChapterExecution.ScanToMarker | AINovalServer/src/main/java/com/ainovel/server/task/executor/GenerateSingleChapterTaskExecutable.java:254 | after the last match the final piece is the text that follows it |
| SingleChapterExecution.MarkerHasNoLineBreak | AINovalServer/src/main/java/com/ainovel/server/task/executor/GenerateSingleChapterTaskExecutable.java:254 | a marker match never runs over a line break |
| SingleChapterExecution.MarkerMatchedAtStart | AINovalServer/src/main/java/com/ainovel/server/task/executor/GenerateSingleChapterTaskExecutable.java:243-254 | the marker a chapter's section carries, for a non-negative chapter index, is matched whole |
| SingleChapterExecution.SectionMarkerMatched | AINovalServer/src/main/java/com/ainovel/server/task/executor/GenerateSingleChapterTaskExecutable.java:243-254 | the marker of the section just appended is matched where it stands |
| SingleChapterExecution.NoMarkerAcrossLineBreak | AINovalServer/src/main/java/com/ainovel/server/task/executor/GenerateSingleChapterTaskExecutable.java:254 | no match before a line break runs past it |
| SingleChapterExecution.MarkerFreeTail | AINovalServer/src/main/java/com/ainovel/server/task/executor/GenerateSingleChapterTaskExecutable.java:254 | no match starts inside a marker-free text that ends the string |
| SingleChapterExecution.Sections | AINovalServer/src/main/java/com/ainovel/server/task/executor/GenerateSingleChapterTaskExecutable.java:254 | the last section is never empty, and a non-empty text without a marker is its only section |
| SingleChapterExecution.MarkerFreeOnePiece | AINovalServer/src/main/java/com/ainovel/server/task/executor/GenerateSingleChapterTaskExecutable.java:254 | splitting a text without a marker yields the whole text as one piece |
| SingleChapterExecution.SectionsEndAfter | AINovalServer/src/main/java/com/ainovel/server/task/executor/GenerateSingleChapterTaskExecutable.java:254 | String.split, which drops trailing empty pieces, ends with the non-empty text after the last match |
| SingleChapterExecution.LastSectionAfterMarker | AINovalServer/src/main/java/com/ainovel/server/task/executor/GenerateSingleChapterTaskExecutable.java:254 | a text whose last marker, after a line break, is followed by non-empty marker-free text splits into at least two sections, that text last |
| SingleChapterExecution.MarkedTextEndsSections | AINovalServer/src/main/java/com/ainovel/server/task/executor/GenerateSingleChapterTaskExecutable.java:243-254 | the full context splits with the appended chapter's body as its last section |
| SingleChapterExecution.LinesUpTo | AINovalServer/src/main/java/com/ainovel/server/task/executor/GenerateSingleChapterTaskExecutable.java:281-290 | one digest line per early section |
| SingleChapterExecution.DigestLines | AINovalServer/src/main/java/com/ainovel/server/task/executor/GenerateSingleChapterTaskExecutable.java:281-290 | there is one digest line per section |
| SingleChapterExecution.LinesUpToAt | AINovalServer/src/main/java/com/ainovel/server/task/executor/GenerateSingleChapterTaskExecutable.java:281-290 | the i-th digest line is the i-th section's, under the label the window gives it |
| SingleChapterExecution.Digest | AINovalServer/src/main/java/com/ainovel/server/task/executor/GenerateSingleChapterTaskExecutable.java:281-290 | a failing digest is the failure of one of its lines |
| SingleChapterExecution.DigestLine | AINovalServer/src/main/java/com/ainovel/server/task/executor/GenerateSingleChapterTaskExecutable.java:283-289 | a digest line fails only with an index out of bounds (the summary start past the content label) |
| SingleChapterExecution.DigestErrorSticks | AINovalServer/src/main/java/com/ainovel/server/task/executor/GenerateSingleChapterTaskExecutable.java:281-290 | once a section's digest line fails, the digest is that failure |
| SingleChapterExecution.DigestSucceedsWithItsLines | AINovalServer/src/main/java/com/ainovel/server/task/executor/GenerateSingleChapterTaskExecutable.java:281-290 | the digest succeeds exactly when every early section's line does |
| SingleChapterExecution.ForceTruncate | AINovalServer/src/main/java/com/ainovel/server/task/executor/GenerateSingleChapterTaskExecutable.java:301-309 | the forced cut keeps the first 5333 and the last 10666 characters around the omission note |
| SingleChapterExecution.TruncationKeepsTail | AINovalServer/src/main/java/com/ainovel/server/task/executor/GenerateSingleChapterTaskExecutable.java:301-309 | whatever ends the text within its last 10666 characters survives the forced cut |
| SingleChapterExecution.Rebuilt | AINovalServer/src/main/java/com/ainovel/server/task/executor/GenerateSingleChapterTaskExecutable.java:255-298 | no sections fail with an index out of bounds; one to three always succeed; with more than three a failure is one digest line's and a success opens with the first section and the digest heading |
| SingleChapterExecution.Fitted | AINovalServer/src/main/java/com/ainovel/server/task/executor/GenerateSingleChapterTaskExecutable.java:255-311 | the fitted context fails exactly when the rebuilt one does, is the rebuilt one up to three sections, and beyond that has at most 15999 characters plus the truncation note |
| SingleChapterExecution.Window | AINovalServer/src/main/java/com/ainovel/server/task/executor/GenerateSingleChapterTaskExecutable.java:238-313 | within 16000 characters the window is the old context followed by the new section; it fails only over the limit and only with an index out of bounds |
| SingleChapterExecution.WindowAsWritten | AINovalServer/src/main/java/com/ainovel/server/task/executor/GenerateSingleChapterTaskExecutable.java:238-313 | within the limit the labels as written change nothing, and over it they never change whether the window fails |
| SingleChapterExecution.DigestLinesFailOutOfBounds | AINovalServer/src/main/java/com/ainovel/server/task/executor/GenerateSingleChapterTaskExecutable.java:281-290 | every failing digest line of the sections fails with an index out of bounds |
| SingleChapterExecution.DigestFailureIgnoresShift | AINovalServer/src/main/java/com/ainovel/server/task/executor/GenerateSingleChapterTaskExecutable.java:281-290 | the digest fails with the labels as written exactly when it fails with the labels kept |
| SingleChapterExecution.ShiftKeepsFailure | AINovalServer/src/main/java/com/ainovel/server/task/executor/GenerateSingleChapterTaskExecutable.java:238-313 | the window as written fails exactly when the window keeping the labels does |
| SingleChapterExecution.WithinLimitKeepsEverything | AINovalServer/src/main/java/com/ainovel/server/task/executor/GenerateSingleChapterTaskExecutable.java:243-249 | within 16000 characters the next context is the current one followed by the new chapter's section |
| SingleChapterExecution.LongHeaderCut | AINovalServer/src/main/java/com/ainovel/server/task/executor/GenerateSingleChapterTaskExecutable.java:255-262 | with at most three sections a header over 5333 characters is cut to 5333 and the omission note |
| SingleChapterExecution.RecentEndsWithLast | AINovalServer/src/main/java/com/ainovel/server/task/executor/GenerateSingleChapterTaskExecutable.java:266-269 | the recent sections end with the last section after its marker |
| SingleChapterExecution.RebuiltFewSections | AINovalServer/src/main/java/com/ainovel/server/task/executor/GenerateSingleChapterTaskExecutable.java:255-271 | with up to three sections the context is the header and the sections after it from max(1, n - 2) |
| SingleChapterExecution.RebuiltManySections | AINovalServer/src/main/java/com/ainovel/server/task/executor/GenerateSingleChapterTaskExecutable.java:272-298 | with more than three sections the context is the first section, the digest heading and lines, and the last two sections |
| SingleChapterExecution.FewSectionsEndWithLast | AINovalServer/src/main/java/com/ainovel/server/task/executor/GenerateSingleChapterTaskExecutable.java:255-271 | a context rebuilt from two or three sections ends with the last one |
| SingleChapterExecution.ManySectionsEndWithLast | AINovalServer/src/main/java/com/ainovel/server/task/executor/GenerateSingleChapterTaskExecutable.java:272-298 | a context rebuilt from more than three sections ends with the last one |
| SingleChapterExecution.RebuiltEndsWithLast | AINovalServer/src/main/java/com/ainovel/server/task/executor/GenerateSingleChapterTaskExecutable.java:255-298 | a rebuilt context ends with the last section after its marker |
| SingleChapterExecution.FittedEndsWithLast | AINovalServer/src/main/java/com/ainovel/server/task/executor/GenerateSingleChapterTaskExecutable.java:255-311 | a fitted context ends with the last section when that fits the part a forced cut keeps |
| SingleChapterExecution.WindowEndsWithLastSection | AINovalServer/src/main/java/com/ainovel/server/task/executor/GenerateSingleChapterTaskExecutable.java:250-312 | over the limit the window ends with the last section |
| SingleChapterExecution.WindowIsFitted | AINovalServer/src/main/java/com/ainovel/server/task/executor/GenerateSingleChapterTaskExecutable.java:247-312 | over the limit the window is the context fitted from the split sections |
| SingleChapterExecution.AppendedSection | AINovalServer/src/main/java/com/ainovel/server/task/executor/GenerateSingleChapterTaskExecutable.java:243 | the chapter's section is a blank line, its marker and a non-empty body |
| SingleChapterExecution.WindowEndsWithCurrentChapter | AINovalServer/src/main/java/com/ainovel/server/task/executor/GenerateSingleChapterTaskExecutable.java:243-312 | the next context ends with the current chapter's body after a marker |
| SingleChapterExecution.CurrentChapterRelabelled | AINovalServer/src/main/java/com/ainovel/server/task/executor/GenerateSingleChapterTaskExecutable.java:266-295 | as written, the label chapterIndex - (sections.length - i) gives the chapter just added the number chapterIndex - 1 |
| SingleChapterExecution.CurrentChapterKeepsLabel | AINovalServer/src/main/java/com/ainovel/server/task/executor/GenerateSingleChapterTaskExecutable.java:243-312 | corrected: the chapter just added keeps the label chapterIndex it was added with |
| SingleChapterExecution.ManageContextWindow | AINovalServer/src/main/java/com/ainovel/server/task/executor/GenerateSingleChapterTaskExecutable.java:238-313 | manageContextWindow computes the context window as written: the kept sections are labelled chapterIndex-(length-i), so the chapter just added is labelled chapterIndex-1 |
| SingleChapterExecution.FitContext | AINovalServer/src/main/java/com/ainovel/server/task/executor/GenerateSingleChapterTaskExecutable.java:250-312 | the over-limit half of manageContextWindow computes the fitted context, with the labels as written |
| SingleChapterExecution.RebuildContext | AINovalServer/src/main/java/com/ainovel/server/task/executor/GenerateSingleChapterTaskExecutable.java:255-298 | the rebuilding step computes the rebuilt context, with the labels as written |
| SingleChapterExecution.KeepHeaderAndRecent | AINovalServer/src/main/java/com/ainovel/server/task/executor/GenerateSingleChapterTaskExecutable.java:255-271 | with up to three sections the loop keeps the header and the recent sections, with the labels as written |
| SingleChapterExecution.DigestAndKeepRecent | AINovalServer/src/main/java/com/ainovel/server/task/executor/GenerateSingleChapterTaskExecutable.java:272-298 | with more than three sections the loops build the digest and keep the last two sections, with the labels as written |
| SingleChapterExecution.AppendRecent | AINovalServer/src/main/java/com/ainovel/server/task/executor/GenerateSingleChapterTaskExecutable.java:266-269 | the loop appending the recent sections builds exactly them, in order, each after a marker labelled chapterIndex-(length-i) |
| SingleChapterExecution.AppendDigest | AINovalServer/src/main/java/com/ainovel/server/task/executor/GenerateSingleChapterTaskExecutable.java:281-290 | the digest loop builds exactly the digest, or its first failure, each line labelled chapterIndex-(length-i) |
| SingleChapterExecution.TempChapterNeverPersisted | AINovalServer/src/main/java/com/ainovel/server/task/executor/GenerateSingleChapterTaskExecutable.java:138-153 | a chapter made up without persisting has an id starting with "temp-chapter-", so its content is never persisted |
| SingleChapterExecution.ChapterOf | AINovalServer/src/main/java/com/ainovel/server/task/executor/GenerateSingleChapterTaskExecutable.java:110-149 | without persisting, a generated summary yields made-up chapter and scene ids; every failure becomes a RuntimeException |
| SingleChapterExecution.CollectContent | AINovalServer/src/main/java/com/ainovel/server/task/executor/GenerateSingleChapterTaskExecutable.java:163-166 | the collect loop joins the streamed chunks, dropping "[DONE]" and "heartbeat" |
| SingleChapterExecution.Execute | AINovalServer/src/main/java/com/ainovel/server/task/executor/GenerateSingleChapterTaskExecutable.java:41-107 | execute fails without a user; stops after the summary when review is required; otherwise generates the content, persists it only for a real chapter, and submits the next chapter with the context window as written while chapters remain |
| SingleSummaryExecution.ChapterTitle | AINovalServer/src/main/java/com/ainovel/server/task/executor/GenerateSingleSummaryTaskExecutable.java:73 | the chapter title has the form "第" + order + "章" |
| SingleSummaryExecution.WithChapterAppended | AINovalServer/src/main/java/com/ainovel/server/task/executor/GenerateSingleSummaryTaskExecutable.java:166-203 | without acts one act "第一卷" of order 1 is created holding the chapter; otherwise the chapter goes at the end of the last act and every other act is kept |
| SingleSummaryExecution.AppendedChapterComesLast | AINovalServer/src/main/java/com/ainovel/server/task/executor/GenerateSingleSummaryTaskExecutable.java:166-203 | in reading order the novel's chapters are the old ones followed by the new chapter |
| SingleSummaryExecution.AddChapterToNovel | AINovalServer/src/main/java/com/ainovel/server/task/executor/GenerateSingleSummaryTaskExecutable.java:166-208 | addChapterToNovel stores the novel with the new chapter appended, creating the structure and the first act when missing |
| SingleSummaryExecution.NextStep | AINovalServer/src/main/java/com/ainovel/server/task/executor/GenerateSingleSummaryTaskExecutable.java:96-131 | a next link exists exactly when there is a parent whose parameters are readable and which wants more chapters than the next index; it records progress at that index and carries the next index and order (each the int sum with one, so wrapping at 2147483647), the parent's AI configuration, the extended context and this summary |
| SingleSummaryExecution.OrderWrapsAfterIntMax | AINovalServer/src/main/java/com/ainovel/server/task/executor/GenerateSingleSummaryTaskExecutable.java:118 | the link after a chapter of order 2147483647 is submitted with order -2147483648 |
| SingleSummaryExecution.ChainNumbersChapters | AINovalServer/src/main/java/com/ainovel/server/task/executor/GenerateSingleSummaryTaskExecutable.java:96-127 | started at index k, the links are numbered k, k+1, ... and each order is the previous plus one in int arithmetic; no link reaches numberOfChapters |
| SingleSummaryExecution.ChainRunsToTheEnd | AINovalServer/src/main/java/com/ainovel/server/task/executor/GenerateSingleSummaryTaskExecutable.java:96-127 | given enough summaries, the chain started at index k has exactly numberOfChapters - k links |
| SingleSummaryExecution.Execute | AINovalServer/src/main/java/com/ainovel/server/task/executor/GenerateSingleSummaryTaskExecutable.java:57-140 | execute fails with "找不到小说: " for a missing novel and "生成章节摘要失败" for a missing response; otherwise it appends the chapter, continues the chain with the int-arithmetic next index and order, and returns the new chapter's id, summary, index and title |
| SummaryExecution.RateLimitKey | AINovalServer/src/main/java/com/ainovel/server/task/executor/GenerateSummaryTaskExecutable.java:147-156 | the rate-limit key starts with "ai_provider_"; it fails only when AI enhancement is on and the configuration's model name is null |
| SummaryExecution.KeyedName | AINovalServer/src/main/java/com/ainovel/server/task/executor/GenerateSummaryTaskExecutable.java:152 | a key is "ai_provider_" followed by the name it is kept under |
| SummaryExecution.RateLimitKeysSeparateModels | AINovalServer/src/main/java/com/ainovel/server/task/executor/GenerateSummaryTaskExecutable.java:147-156 | distinct models get distinct keys; without enhancement the key is that of a model named "default"; without a configuration it is that of "default_model" |
| SummaryExecution.SummaryWritten | AINovalServer/src/main/java/com/ainovel/server/task/executor/GenerateSummaryTaskExecutable.java:131-133 | the update sets the summary and raises the version by one, and changes nothing else |
| SummaryExecution.CompareAndSet | AINovalServer/src/main/java/com/ainovel/server/task/executor/GenerateSummaryTaskExecutable.java:127-145 | the write applies exactly when the scene is stored at the expected version and the store does not fail; a miss or a failure leaves the store unchanged |
| SummaryExecution.SecondWriteAtSameVersionMisses | AINovalServer/src/main/java/com/ainovel/server/task/executor/GenerateSummaryTaskExecutable.java:127-135 | once a write at a version has applied, a second write expecting that version misses and changes nothing |
| SummaryExecution.CompareAndSetKeepsWellStored | AINovalServer/src/main/java/com/ainovel/server/task/executor/GenerateSummaryTaskExecutable.java:127-145 | the write keeps every stored scene stored under its own id |
| SummaryExecution.UpdateSceneSummaryAtomic | AINovalServer/src/main/java/com/ainovel/server/task/executor/GenerateSummaryTaskExecutable.java:127-145 | updateSceneSummaryAtomic performs the compare-and-set on the repository and reports whether it applied |
| SummaryExecution.StoreSummaryAsWritten | AINovalServer/src/main/java/com/ainovel/server/task/executor/GenerateSummaryTaskExecutable.java:92-116 | as written, the result reports the summary whenever the scene is still stored, whether or not the retry applied |
| SummaryExecution.RetryFailureReportedAsStored | AINovalServer/src/main/java/com/ainovel/server/task/executor/GenerateSummaryTaskExecutable.java:101-114 | as written, when another writer's edit makes the first write miss and the retry fails, the task reports success while the scene keeps the other writer's summary |
| SummaryExecution.StoreSummary | AINovalServer/src/main/java/com/ainovel/server/task/executor/GenerateSummaryTaskExecutable.java:92-116 | corrected: a successful result reports the scene and the summary it stores |
| SummaryExecution.StoredSummaryIsReported | AINovalServer/src/main/java/com/ainovel/server/task/executor/GenerateSummaryTaskExecutable.java:92-116 | corrected: success is reported exactly when the store changed, and then the scene holds the summary at a higher version; it differs from the code as written only where that reports a retry that did not apply |
| SummaryExecution.Interleaved | AINovalServer/src/main/java/com/ainovel/server/task/executor/GenerateSummaryTaskExecutable.java:58-92 | another writer, between the read and the write, leaves the scene, deletes it or saves a new state of it |
| SummaryExecution.Execute | AINovalServer/src/main/java/com/ainovel/server/task/executor/GenerateSummaryTaskExecutable.java:46-125 | execute fails with ResourceNotFoundException for a missing scene, with "场景内容为空，无法生成摘要" for empty content, on a rate-limit key failure, and when the permit is refused, changing nothing; otherwise it writes the generated summary under the permit as StoreSummaryAsWritten says, so a missed retry is still reported as success |
| SummaryExecution.WriteGenerated | AINovalServer/src/main/java/com/ainovel/server/task/executor/GenerateSummaryTaskExecutable.java:80-117 | a missing or blank answer fails without changing the store; otherwise the summary is stored as the write as written says, on the store as the other writer left it: success is reported even when the retried write missed |
| SettingTypes.SettingType.Value | AINovalServer/src/main/java/com/ainovel/server/domain/model/SettingType.java:11-34 | each constant's value, which toString also gives, is its upper-case name |
| SettingTypes.SettingType.DisplayName | AINovalServer/src/main/java/com/ainovel/server/domain/model/SettingType.java:11-38 | each constant has a non-empty display name |
| SettingTypes.FromValue | AINovalServer/src/main/java/com/ainovel/server/domain/model/SettingType.java:40-49 | a null value gives OTHER, and any other type returned has a value equal to the given one ignoring case |
| SettingTypes.FirstMatching | AINovalServer/src/main/java/com/ainovel/server/domain/model/SettingType.java:40-45 | the scan over values() returns the first type whose value equals the argument ignoring case, or none when none does |
| SettingTypes.AllTypesListed | AINovalServer/src/main/java/com/ainovel/server/domain/model/SettingType.java:10-21 | values() lists every one of the eleven constants |
| SettingTypes.ValuesDistinctIgnoringCase | AINovalServer/src/main/java/com/ainovel/server/domain/model/SettingType.java:11-21 | no two constants have values equal ignoring case, so the scan's order never matters |
| SettingTypes.FromValueFindsTheMatch | AINovalServer/src/main/java/com/ainovel/server/domain/model/SettingType.java:40-49 | fromValue returns the type whose value matches ignoring case, and OTHER when none matches |
| SettingTypes.FromValueOfValue | AINovalServer/src/main/java/com/ainovel/server/domain/model/SettingType.java:40-54 | fromValue of a type's value, or of its lower-case form, gives the type back |
| SettingTypes.UnknownValueIsOther | AINovalServer/src/main/java/com/ainovel/server/domain/model/SettingType.java:40-49 | a null or unknown value gives OTHER |
| PromptTemplates.AIFeatureType.Name | AINovalServer/src/main/java/com/ainovel/server/domain/model/AIFeatureType.java:6-14 | each feature type's name() is its non-empty constant name |
| PromptTemplates.ListingsNest | AINovalServer/src/main/java/com/ainovel/server/service/impl/PromptTemplateServiceImpl.java:53-79 | a FAVORITE listing is within the PRIVATE one, PRIVATE within ALL; ALL lists the public templates and the user's own; any other list type lists what ALL does |
| PromptTemplates.Head50 | AINovalServer/src/main/java/com/ainovel/server/service/impl/PromptTemplateServiceImpl.java:268-269 | the section texts are the first fifty characters, or the whole text when shorter |
| PromptTemplates.ResultFor | AINovalServer/src/main/java/com/ainovel/server/service/impl/PromptTemplateServiceImpl.java:262-285 | an optimisation result has one "modified" section of the first fifty characters of both texts, both lengths, and length / 4 as each token estimate |
| PromptTemplates.OptimizePrompt | AINovalServer/src/main/java/com/ainovel/server/service/impl/PromptTemplateServiceImpl.java:253-288 | optimizePrompt yields "优化后的内容: " followed by the content in a section titled "优化区块1"; a null content fails |
| PromptTemplates.ProgressResult | AINovalServer/src/main/java/com/ainovel/server/service/impl/PromptTemplateServiceImpl.java:326-350 | a progress result is "优化完成 <p>%: " followed by the content; a null content fails |
| PromptTemplates.OptimizePromptStream | AINovalServer/src/main/java/com/ainovel/server/service/impl/PromptTemplateServiceImpl.java:313-323 | the stream holds three results, the last at 100 percent |
| PromptTemplates.NewTemplate | AINovalServer/src/main/java/com/ainovel/server/service/impl/PromptTemplateServiceImpl.java:116-135 | a created template is private, authored by the user, not copied, not verified, not a favourite, with both times now |
| PromptTemplates.Updated | AINovalServer/src/main/java/com/ainovel/server/service/impl/PromptTemplateServiceImpl.java:146-154 | an update replaces the name and the content only when given non-empty, always sets the update time, and changes nothing else |
| PromptTemplates.CopyOf | AINovalServer/src/main/java/com/ainovel/server/service/impl/PromptTemplateServiceImpl.java:186-201 | a copy is named with " (复制)" appended, keeps content and feature type, is private to the copying user and points to its source |
| PromptTemplates.Toggled | AINovalServer/src/main/java/com/ainovel/server/service/impl/PromptTemplateServiceImpl.java:216-218 | a toggle flips the favourite flag, sets the update time and changes nothing else |
| PromptTemplates.EditsKeepOwnership | AINovalServer/src/main/java/com/ainovel/server/service/impl/PromptTemplateServiceImpl.java:137-226 | updates and toggles keep who owns a template; toggling twice restores the flag |
| PromptTemplates.PromptTemplateStore.constructor | AINovalServer/src/main/java/com/ainovel/server/service/impl/PromptTemplateServiceImpl.java:45-51 | the store starts empty |
| PromptTemplates.PromptTemplateStore.GetById | AINovalServer/src/main/java/com/ainovel/server/service/impl/PromptTemplateServiceImpl.java:110-114 | getPromptTemplateById yields the stored template or fails with "提示词模板不存在: " and the id |
| PromptTemplates.PromptTemplateStore.Create | AINovalServer/src/main/java/com/ainovel/server/service/impl/PromptTemplateServiceImpl.java:116-135 | createPromptTemplate stores the new template under its id and changes no other |
| PromptTemplates.PromptTemplateStore.Update | AINovalServer/src/main/java/com/ainovel/server/service/impl/PromptTemplateServiceImpl.java:137-162 | updatePromptTemplate fails for an unknown template and, with "无权修改此模板", for one the user does not own privately, changing nothing; otherwise it stores and returns the update |
| PromptTemplates.PromptTemplateStore.Delete | AINovalServer/src/main/java/com/ainovel/server/service/impl/PromptTemplateServiceImpl.java:164-175 | deletePromptTemplate removes only a private template the user owns, and otherwise fails with "无权删除此模板" |
| PromptTemplates.PromptTemplateStore.Copy | AINovalServer/src/main/java/com/ainovel/server/service/impl/PromptTemplateServiceImpl.java:177-205 | copyPublicTemplate copies only a public template, under a new id, and otherwise fails with "只能复制公共模板" |
| PromptTemplates.PromptTemplateStore.ToggleFavorite | AINovalServer/src/main/java/com/ainovel/server/service/impl/PromptTemplateServiceImpl.java:207-226 | toggleTemplateFavorite flips the flag only for the owner of a private template, and otherwise fails with "无权收藏此模板" |
| PromptTemplates.PromptTemplateStore.Optimize | AINovalServer/src/main/java/com/ainovel/server/service/impl/PromptTemplateServiceImpl.java:228-250 | optimizePromptTemplate, for the owner, returns the optimisation and saves its content into the template; otherwise it fails with "无权优化此模板" |
| PromptTemplates.PromptTemplateStore.OptimizeStream | AINovalServer/src/main/java/com/ainovel/server/service/impl/PromptTemplateServiceImpl.java:290-311 | optimizePromptTemplateStream, for the owner, returns the three results and leaves the last one's content in the template |
| PromptTemplateWeb.OptimizationStyle.Name | AINovalServer/src/main/java/com/ainovel/server/web/controller/PromptTemplateController.java:338-346 | each style's name() is its non-empty constant name |
| PromptTemplateWeb.FeatureTypeToString | AINovalServer/src/main/java/com/ainovel/server/web/dto/PromptTemplateDto.java:57-66 | a feature's wire name is its camel-case name, which differs from its constant name |
| PromptTemplateWeb.FromEntity | AINovalServer/src/main/java/com/ainovel/server/web/dto/PromptTemplateDto.java:38-52 | fromEntity copies every field and gives the feature by a wire name the controller parses back to the same feature |
| PromptTemplateWeb.FeatureByName | AINovalServer/src/main/java/com/ainovel/server/web/controller/PromptTemplateController.java:325 | valueOf finds the constant with exactly the given name, or fails when none has it |
| PromptTemplateWeb.ConvertToAIFeatureType | AINovalServer/src/main/java/com/ainovel/server/web/controller/PromptTemplateController.java:317-331 | a string that names no feature, null included, fails with "无效的功能类型: " followed by it |
| PromptTemplateWeb.FeatureTypeRoundTrip | AINovalServer/src/main/java/com/ainovel/server/web/controller/PromptTemplateController.java:317-331 | the feature parse accepts a feature exactly by its camel-case name or its constant name, so it inverts featureTypeToString |
| PromptTemplateWeb.FeatureFilter | AINovalServer/src/main/java/com/ainovel/server/web/controller/PromptTemplateController.java:55-63 | a null or empty feature type lists without a filter; otherwise the listing is filtered by the parsed feature, or fails with the parse |
| PromptTemplateWeb.StyleByName | AINovalServer/src/main/java/com/ainovel/server/web/controller/PromptTemplateController.java:346 | valueOf finds the style with exactly the given name, or fails when none has it |
| PromptTemplateWeb.StyleWord | AINovalServer/src/main/java/com/ainovel/server/web/controller/PromptTemplateController.java:339-344 | each style has a lower-case word that differs from its constant name |
| PromptTemplateWeb.ConvertToOptimizationStyle | AINovalServer/src/main/java/com/ainovel/server/web/controller/PromptTemplateController.java:336-352 | a string that names no style, null included, fails with "无效的优化风格: " followed by it |
| PromptTemplateWeb.StyleParsing | AINovalServer/src/main/java/com/ainovel/server/web/controller/PromptTemplateController.java:336-352 | a style is accepted exactly by its lower-case word or its constant name |
| StructuredOutput.Span | AINovalServer/src/main/java/com/ainovel/server/service/ai/strategy/StructuredOutputStrategy.java:107-111 | the span from the first opening to the last closing character is non-empty and starts and ends with them |
| StructuredOutput.HasSpanIffOrdered | AINovalServer/src/main/java/com/ainovel/server/service/ai/strategy/StructuredOutputStrategy.java:107-110 | the guard startIdx >= 0 && endIdx > startIdx holds exactly when some opening character comes before some closing one |
| StructuredOutput.ExtractJson | AINovalServer/src/main/java/com/ainovel/server/service/ai/strategy/StructuredOutputStrategy.java:105-125 | extractJsonFromResponse returns the array span when there is one, else the object span wrapped in brackets, and otherwise fails with "无法从响应中提取JSON: " and the response; every result is bracketed |
| StructuredOutput.ExtractJsonOfJson | AINovalServer/src/main/java/com/ainovel/server/service/ai/strategy/StructuredOutputStrategy.java:105-125 | an answer that is already a bracketed array comes back unchanged, and one that is a single object comes back as an array holding it |
| EmbeddingStore.Zeros | AINovalServer/src/main/java/com/ainovel/server/service/rag/ChromaEmbeddingStoreAdapter.java:87 | a new float array holds only zeros |
| EmbeddingStore.Adjusted | AINovalServer/src/main/java/com/ainovel/server/service/rag/ChromaEmbeddingStoreAdapter.java:86-99 | the adjusted vector has 384 components: the original's first ones, then zeros |
| EmbeddingStore.AdjustVectorDimension | AINovalServer/src/main/java/com/ainovel/server/service/rag/ChromaEmbeddingStoreAdapter.java:86-99 | adjustVectorDimension returns a fresh array holding the adjusted vector |
| EmbeddingStore.ValidateAndAdjust | AINovalServer/src/main/java/com/ainovel/server/service/rag/ChromaEmbeddingStoreAdapter.java:61-81 | a null or empty vector gives null; any other gives 384 components, the original's prefix padded with zeros |
| EmbeddingStore.ValidateAndAdjustIdempotent | AINovalServer/src/main/java/com/ainovel/server/service/rag/ChromaEmbeddingStoreAdapter.java:61-99 | validating twice is validating once, and a vector of 384 components is kept as it is |
| EmbeddingStore.TruncationForgetsTail | AINovalServer/src/main/java/com/ainovel/server/service/rag/ChromaEmbeddingStoreAdapter.java:86-99 | vectors that agree on their first 384 components adjust to the same vector |
| EmbeddingStore.StoreFailure | AINovalServer/src/main/java/com/ainovel/server/service/rag/ChromaEmbeddingStoreAdapter.java:150-153 | a store failure is a VectorStoreException "<prefix><operation> 操作失败: <message>" whose cause wraps the original |
| EmbeddingStore.SegmentBatch | AINovalServer/src/main/java/com/ainovel/server/service/rag/ChromaEmbeddingStoreAdapter.java:274-289 | the batch has no more entries than embeddings, and every entry carries a vector of 384 components |
| EmbeddingStore.SegmentBatchSkipsOnlyMissing | AINovalServer/src/main/java/com/ainovel/server/service/rag/ChromaEmbeddingStoreAdapter.java:275-289 | the batch holds exactly one entry per pair whose vector is neither null nor empty |
| EmbeddingStore.EmbeddingStoreAdapter.constructor | AINovalServer/src/main/java/com/ainovel/server/service/rag/ChromaEmbeddingStoreAdapter.java:46-56 | the adapter starts with no error counts and no error times |
| EmbeddingStore.EmbeddingStoreAdapter.RecordFailure | AINovalServer/src/main/java/com/ainovel/server/service/rag/ChromaEmbeddingStoreAdapter.java:116-140 | a failure raises the operation's count from zero when unseen and puts the operation in its 1000 ms cooldown |
| EmbeddingStore.EmbeddingStoreAdapter.ResetErrorCount | AINovalServer/src/main/java/com/ainovel/server/service/rag/ChromaEmbeddingStoreAdapter.java:124-126 | resetErrorCount (a private helper no operation calls) sets the count to zero |
| EmbeddingStore.EmbeddingStoreAdapter.GetErrorCount | AINovalServer/src/main/java/com/ainovel/server/service/rag/ChromaEmbeddingStoreAdapter.java:131-133 | getErrorCount (a private helper no operation calls) returns the count, recording zero for an unseen operation |
| EmbeddingStore.EmbeddingStoreAdapter.Guard | AINovalServer/src/main/java/com/ainovel/server/service/rag/ChromaEmbeddingStoreAdapter.java:171-175 | a good answer passes through unchanged; a failure is counted, timed and wrapped behind the operation's prefix |
| EmbeddingStore.EmbeddingStoreAdapter.Add | AINovalServer/src/main/java/com/ainovel/server/service/rag/ChromaEmbeddingStoreAdapter.java:162-176 | add(embedding) sends the adjusted vector with no content and no metadata; a failure is counted and time-stamped under the operation, and a good answer leaves both error maps alone |
| EmbeddingStore.EmbeddingStoreAdapter.AddWithId | AINovalServer/src/main/java/com/ainovel/server/service/rag/ChromaEmbeddingStoreAdapter.java:184-199 | add(id, embedding) hands the id, or a drawn UUID when the id is null or empty, to storeVector as the content, with the adjusted vector and no metadata; a good answer leaves both error maps alone |
| EmbeddingStore.EmbeddingStoreAdapter.AddWithSegment | AINovalServer/src/main/java/com/ainovel/server/service/rag/ChromaEmbeddingStoreAdapter.java:208-229 | add(embedding, segment) sends the segment's text and a copy of its metadata; a failure is counted and time-stamped under the operation, and a good answer leaves both error maps alone |
| EmbeddingStore.EmbeddingStoreAdapter.AddAll | AINovalServer/src/main/java/com/ainovel/server/service/rag/ChromaEmbeddingStoreAdapter.java:237-257 | addAll(embeddings) sends one entry per embedding, null vectors included; a failure is counted and time-stamped under the operation, and a good answer leaves both error maps alone |
| EmbeddingStore.EmbeddingStoreAdapter.AddAllWithSegments | AINovalServer/src/main/java/com/ainovel/server/service/rag/ChromaEmbeddingStoreAdapter.java:266-300 | addAll with segments fails on lists of different sizes and otherwise sends the batch that skips only missing vectors; every failure is counted; a failure is counted and time-stamped under the operation, and a good answer leaves both error maps alone |
| EmbeddingStore.EmbeddingStoreAdapter.FindRelevant | AINovalServer/src/main/java/com/ainovel/server/service/rag/ChromaEmbeddingStoreAdapter.java:309-385 | findRelevant sends the adjusted query and a filter only when one is given and not empty; failures are counted, time-stamped and wrapped with the right prefix; a good answer leaves both error maps alone |
| EmbeddingStore.CountOf | AINovalServer/src/main/java/com/ainovel/server/service/rag/ChromaEmbeddingStoreAdapter.java:131-133 | an operation never seen counts zero |
| EmbeddingStore.CountsFailures | AINovalServer/src/main/java/com/ainovel/server/service/rag/ChromaEmbeddingStoreAdapter.java:138-140 | after k failures of an operation never seen, its count is k |
| EmbeddingStore.Failed | AINovalServer/src/main/java/com/ainovel/server/service/rag/ChromaEmbeddingStoreAdapter.java:138-140 | failures of one operation leave every other count unchanged |
| UserService.Cleared | AINovalServer/src/main/java/com/ainovel/server/service/impl/UserServiceImpl.java:84 | clearing keeps every configuration but sets its default flag to false |
| UserService.ClearDefaults | AINovalServer/src/main/java/com/ainovel/server/service/impl/UserServiceImpl.java:84 | the forEach over the configurations computes the cleared list |
| UserService.AddedConfigComesLast | AINovalServer/src/main/java/com/ainovel/server/service/impl/UserServiceImpl.java:83-89 | the new configuration is appended last and the others differ at most in their default flag; a default newcomer is the only default; at most one default stays at most one |
| UserService.UpdatedConfigTakesItsPlace | AINovalServer/src/main/java/com/ainovel/server/service/impl/UserServiceImpl.java:102-110 | the configuration replaces the one at the index and the others differ at most in their default flag; a default newcomer is the only default; at most one default stays at most one |
| UserService.OutOfRangeChangesNothing | AINovalServer/src/main/java/com/ainovel/server/service/impl/UserServiceImpl.java:102-152 | an index out of range leaves the list unchanged under update, delete and set-default |
| UserService.DeletedDefaultPassesToFirst | AINovalServer/src/main/java/com/ainovel/server/service/impl/UserServiceImpl.java:125-135 | deleting removes the entry; when it was the default and entries remain, the first becomes the only default; at most one default stays at most one |
| UserService.ChosenDefaultIsTheOnlyOne | AINovalServer/src/main/java/com/ainovel/server/service/impl/UserServiceImpl.java:152-158 | setting a default makes the configuration at that index the only default and changes nothing else |
| UserService.WithProfile | AINovalServer/src/main/java/com/ainovel/server/service/impl/UserServiceImpl.java:62-68 | updateUser copies only the display name, the avatar and the preferences, sets the update time and keeps everything else |
| UserService.UserRepository.constructor | AINovalServer/src/main/java/com/ainovel/server/service/impl/UserServiceImpl.java:22-31 | the repository starts with no user |
| UserService.UserRepository.CreateUser | AINovalServer/src/main/java/com/ainovel/server/service/impl/UserServiceImpl.java:34-47 | createUser stamps both times, replaces the password by its encoding and saves the user under its id or a drawn one |
| UserService.UserRepository.UpdateUser | AINovalServer/src/main/java/com/ainovel/server/service/impl/UserServiceImpl.java:59-71 | updateUser changes nothing for an unknown id and otherwise saves the profile update |
| UserService.UserRepository.DeleteUser | AINovalServer/src/main/java/com/ainovel/server/service/impl/UserServiceImpl.java:73-76 | deleteUser removes the user with that id and only it |
| UserService.UserRepository.AddAIModelConfig | AINovalServer/src/main/java/com/ainovel/server/service/impl/UserServiceImpl.java:78-93 | addAIModelConfig changes nothing for an unknown user and otherwise saves the list with the configuration added |
| UserService.UserRepository.UpdateAIModelConfig | AINovalServer/src/main/java/com/ainovel/server/service/impl/UserServiceImpl.java:95-116 | updateAIModelConfig changes nothing for an unknown user, saves the user unchanged for an index out of range, and otherwise saves the updated list |
| UserService.UserRepository.DeleteAIModelConfig | AINovalServer/src/main/java/com/ainovel/server/service/impl/UserServiceImpl.java:118-143 | deleteAIModelConfig changes nothing for an unknown user, saves the user unchanged for an index out of range, and otherwise saves the list without the entry |
| UserService.UserRepository.SetDefaultAIModelConfig | AINovalServer/src/main/java/com/ainovel/server/service/impl/UserServiceImpl.java:145-164 | setDefaultAIModelConfig changes nothing for an unknown user, saves the user unchanged for an index out of range, and otherwise makes that configuration the only default |
| UserService.UserRepository.UserAIModelConfigs | AINovalServer/src/main/java/com/ainovel/server/service/impl/UserServiceImpl.java:166-170 | getUserAIModelConfigs lists the user's configurations, or nothing for an unknown user |
| NovelSettings.CreatedItem | AINovalServer/src/main/java/com/ainovel/server/service/impl/NovelSettingServiceImpl.java:62-89 | a created item gets the drawn id and both times, priority 3, generatedBy "USER" and an empty relationship list where those are missing, and keeps everything else |
| NovelSettings.UpdatedItem | AINovalServer/src/main/java/com/ainovel/server/service/impl/NovelSettingServiceImpl.java:138-146 | an update keeps the stored id, novel, user and creation time, stamps the update time, and takes everything else from the new item |
| NovelSettings.Reviewed | AINovalServer/src/main/java/com/ainovel/server/service/impl/NovelSettingServiceImpl.java:182-218 | accepting or rejecting succeeds exactly for an AI suggestion, setting the status and the time; anything else fails with the operation's message |
| NovelSettings.Kept | AINovalServer/src/main/java/com/ainovel/server/service/impl/NovelSettingServiceImpl.java:272-282 | the filter keeps exactly the relationships that do not match the target (and the type, when one is given), in order |
| NovelSettings.KeptAllIffNoneDropped | AINovalServer/src/main/java/com/ainovel/server/service/impl/NovelSettingServiceImpl.java:272-288 | the filter keeps the whole list exactly when no relationship matches |
| NovelSettings.WithoutRelationship | AINovalServer/src/main/java/com/ainovel/server/service/impl/NovelSettingServiceImpl.java:262-296 | removal fails with ResourceNotFoundException when nothing matches; otherwise it stores the kept relationships and the time and changes nothing else |
| NovelSettings.RemovalNeedsAMatch | AINovalServer/src/main/java/com/ainovel/server/service/impl/NovelSettingServiceImpl.java:264-288 | removal succeeds exactly when the item has a relationship that matches |
| NovelSettings.RemoveUndoesAdd | AINovalServer/src/main/java/com/ainovel/server/service/impl/NovelSettingServiceImpl.java:223-296 | removing by target a relationship just added gives back the relationships the item had |
| NovelSettings.CreatedGroup | AINovalServer/src/main/java/com/ainovel/server/service/impl/NovelSettingServiceImpl.java:327-348 | a created group gets the drawn id and both times, an empty item list when missing, and is never active |
| NovelSettings.UpdatedGroup | AINovalServer/src/main/java/com/ainovel/server/service/impl/NovelSettingServiceImpl.java:383-397 | a group update keeps the stored id, novel, user and creation time and stamps the update time |
| NovelSettings.WithGroupItem | AINovalServer/src/main/java/com/ainovel/server/service/impl/NovelSettingServiceImpl.java:407-437 | adding an item from another novel fails with "只能添加同一小说的设定条目到设定组"; otherwise the group then lists the item |
| NovelSettings.AddItemIdempotent | AINovalServer/src/main/java/com/ainovel/server/service/impl/NovelSettingServiceImpl.java:426-429 | adding an item the group already lists changes nothing |
| NovelSettings.RemoveFirst | AINovalServer/src/main/java/com/ainovel/server/service/impl/NovelSettingServiceImpl.java:461 | List.remove(Object) takes out one occurrence of the id, the first, and nothing when absent |
| NovelSettings.RemoveFirstOfDistinct | AINovalServer/src/main/java/com/ainovel/server/service/impl/NovelSettingServiceImpl.java:461 | in a list without repetitions the removal takes the id out entirely |
| NovelSettings.RemoveUndoesAppend | AINovalServer/src/main/java/com/ainovel/server/service/impl/NovelSettingServiceImpl.java:432-461 | removing an id just appended to a list without it gives the list back |
| NovelSettings.WithoutGroupItem | AINovalServer/src/main/java/com/ainovel/server/service/impl/NovelSettingServiceImpl.java:453-466 | removing an id the group does not list fails with ResourceNotFoundException; otherwise its first occurrence goes and the time is stamped |
| NovelSettings.GroupAfterItemDeleted | AINovalServer/src/main/java/com/ainovel/server/service/impl/NovelSettingServiceImpl.java:163-169 | deleting an item removes its id from each group of its novel that lists it and leaves every other group alone |
| NovelSettings.Score | AINovalServer/src/main/java/com/ainovel/server/service/impl/NovelSettingServiceImpl.java:730-777 | the score lies between the priority term and 8 tenths above it, and a user's item scores at least 3 tenths above the priority term |
| NovelSettings.Reorder | AINovalServer/src/main/java/com/ainovel/server/service/impl/NovelSettingServiceImpl.java:713-724 | reordering keeps every item, as often as it occurs |
| NovelSettings.TopRelevant | AINovalServer/src/main/java/com/ainovel/server/service/impl/NovelSettingServiceImpl.java:509-578 | at most topK results, all drawn from the found items; no query vector gives none |
| NovelSettings.ScoreContributions | AINovalServer/src/main/java/com/ainovel/server/service/impl/NovelSettingServiceImpl.java:730-777 | being in the current scene adds exactly half a point, and a user's item outscores the same item as an AI suggestion |
| NovelSettings.InsertKeepsDescending | AINovalServer/src/main/java/com/ainovel/server/service/impl/NovelSettingServiceImpl.java:716-723 | one insertion into a list sorted by descending score keeps it sorted and adds exactly that item |
| NovelSettings.InsertKeepsTies | AINovalServer/src/main/java/com/ainovel/server/service/impl/NovelSettingServiceImpl.java:721 | items of equal score keep their order through one insertion |
| NovelSettings.ReorderSortsStably | AINovalServer/src/main/java/com/ainovel/server/service/impl/NovelSettingServiceImpl.java:713-724 | reorderResults sorts by descending score, is a permutation, and keeps the input order among equal scores, as the stable sort does |
| NovelSettings.PrefixOutscoresTail | AINovalServer/src/main/java/com/ainovel/server/service/impl/NovelSettingServiceImpl.java:572-575 | cutting a descending list leaves nothing in the tail that outscores the head |
| NovelSettings.TopRelevantAreTheBest | AINovalServer/src/main/java/com/ainovel/server/service/impl/NovelSettingServiceImpl.java:509-578 | the result holds min(topK, found) of the found items in descending order, each scoring at least as well as any found item left out |
| NovelSettings.SettingStore.constructor | AINovalServer/src/main/java/com/ainovel/server/service/impl/NovelSettingServiceImpl.java:44-57 | the store starts with no item and no group |
| NovelSettings.SettingStore.ItemById | AINovalServer/src/main/java/com/ainovel/server/service/impl/NovelSettingServiceImpl.java:132-136 | getSettingItemById yields the stored item or a ResourceNotFoundException |
| NovelSettings.SettingStore.GroupById | AINovalServer/src/main/java/com/ainovel/server/service/impl/NovelSettingServiceImpl.java:377-381 | getSettingGroupById yields the stored group or a ResourceNotFoundException |
| NovelSettings.SettingStore.CreateSettingItem | AINovalServer/src/main/java/com/ainovel/server/service/impl/NovelSettingServiceImpl.java:62-90 | createSettingItem stores the created item under the drawn id and changes nothing else |
| NovelSettings.SettingStore.UpdateSettingItem | AINovalServer/src/main/java/com/ainovel/server/service/impl/NovelSettingServiceImpl.java:138-153 | updateSettingItem fails for an unknown id and otherwise stores the update |
| NovelSettings.SettingStore.DeleteSettingItem | AINovalServer/src/main/java/com/ainovel/server/service/impl/NovelSettingServiceImpl.java:157-173 | deleteSettingItem fails for an unknown id; otherwise the id leaves the groups of the item's novel and the item goes |
| NovelSettings.SettingStore.AcceptSuggestedSettingItem | AINovalServer/src/main/java/com/ainovel/server/service/impl/NovelSettingServiceImpl.java:182-199 | acceptSuggestedSettingItem stores the accepted suggestion, or fails without a change |
| NovelSettings.SettingStore.RejectSuggestedSettingItem | AINovalServer/src/main/java/com/ainovel/server/service/impl/NovelSettingServiceImpl.java:202-219 | rejectSuggestedSettingItem stores the rejected suggestion, or fails without a change |
| NovelSettings.SettingStore.AddSettingRelationship | AINovalServer/src/main/java/com/ainovel/server/service/impl/NovelSettingServiceImpl.java:223-259 | addSettingRelationship needs the item and then the target to exist, and stores the item with the relationship when the rules allow it |
| NovelSettings.SettingStore.RemoveSettingRelationship | AINovalServer/src/main/java/com/ainovel/server/service/impl/NovelSettingServiceImpl.java:262-298 | removeSettingRelationship fails for an unknown item or when nothing matches, and otherwise stores the item without the matching relationships |
| NovelSettings.SettingStore.CreateSettingGroup | AINovalServer/src/main/java/com/ainovel/server/service/impl/NovelSettingServiceImpl.java:327-349 | createSettingGroup stores the created group under the drawn id |
| NovelSettings.SettingStore.UpdateSettingGroup | AINovalServer/src/main/java/com/ainovel/server/service/impl/NovelSettingServiceImpl.java:383-398 | updateSettingGroup fails for an unknown id and otherwise stores the update |
| NovelSettings.SettingStore.DeleteSettingGroup | AINovalServer/src/main/java/com/ainovel/server/service/impl/NovelSettingServiceImpl.java:401-404 | deleteSettingGroup removes the group with that id, silently when there is none |
| NovelSettings.SettingStore.AddItemToGroup | AINovalServer/src/main/java/com/ainovel/server/service/impl/NovelSettingServiceImpl.java:407-445 | addItemToGroup needs the group and the item to exist, and saves the group only when the item was added |
| NovelSettings.SettingStore.RemoveItemFromGroup | AINovalServer/src/main/java/com/ainovel/server/service/impl/NovelSettingServiceImpl.java:453-477 | removeItemFromGroup fails for an unknown group or an unlisted item, and otherwise stores the group without the id |
| NovelSettings.SettingStore.SetGroupActiveContext | AINovalServer/src/main/java/com/ainovel/server/service/impl/NovelSettingServiceImpl.java:486-495 | setGroupActiveContext fails for an unknown group and otherwise sets the flag and the time |
| AIService.FirstProvider | AINovalServer/src/main/java/com/ainovel/server/service/impl/AIServiceImpl.java:225-230 | the lookup answers a provider exactly when some group lists the model ignoring case, and the provider it answers lists it |
| AIService.FirstProviderIsEarliest | AINovalServer/src/main/java/com/ainovel/server/service/impl/AIServiceImpl.java:225-230 | the first group in the map's iteration order that lists the model wins, whatever later groups list |
| AIService.SecondGroupWins | AINovalServer/src/main/java/com/ainovel/server/service/impl/AIServiceImpl.java:225-230 | with no match in the first group, a match in the second one is the answer |
| AIService.ProviderForModel | AINovalServer/src/main/java/com/ainovel/server/service/impl/AIServiceImpl.java:221-232 | getProviderForModel rejects a blank name with "模型名称不能为空", an unlisted model with "未知的或系统不支持的模型: " plus the name, and otherwise names a provider that lists the model |
| AIService.NotSameIgnoringCase | AINovalServer/src/main/java/com/ainovel/server/service/impl/AIServiceImpl.java:226 | strings of different length, or whose first letters differ after lower-casing, never match ignoring case |
| AIService.GeminiOmits | AINovalServer/src/main/java/com/ainovel/server/service/impl/AIServiceImpl.java:82-87 | the gemini group lists no sixteen-letter model starting with 'x' |
| AIService.GrokBetaResolvesToOpenAI | AINovalServer/src/main/java/com/ainovel/server/service/impl/AIServiceImpl.java:66-118 | "x-ai/grok-3-beta", listed under both openai and x-ai, resolves to openai, the earlier of the two in the map's order |
| AIService.ModelsForProvider | AINovalServer/src/main/java/com/ainovel/server/service/impl/AIServiceImpl.java:235-247 | getModelsForProvider rejects a blank name and otherwise gives the models of the lower-cased provider, none for an unknown one |
| AIService.GroupModels | AINovalServer/src/main/java/com/ainovel/server/service/impl/AIServiceImpl.java:239-246 | the models of the first group with that key, or none when no group has it |
| AIService.Providers | AINovalServer/src/main/java/com/ainovel/server/service/impl/AIServiceImpl.java:250-252 | getAvailableProviders lists the key of every group, in order |
| AIService.AllModelsConcatenates | AINovalServer/src/main/java/com/ainovel/server/service/impl/AIServiceImpl.java:166-169 | getAvailableModels yields every listed model, one entry per listing, and nothing else |
| AIService.AvailableModelsKeepRepeats | AINovalServer/src/main/java/com/ainovel/server/service/impl/AIServiceImpl.java:166-169 | a model listed by two providers appears twice among the available models |
| AIService.ModelGroupMap | AINovalServer/src/main/java/com/ainovel/server/service/impl/AIServiceImpl.java:255-257 | getModelGroups maps each provider, and only those, to its list |
| AIService.ContentProvider | AINovalServer/src/main/java/com/ainovel/server/service/impl/AIServiceImpl.java:124-163 | generateContent and its stream reject a blank key first, then pass on the model lookup's error, then fail when no provider is created, and otherwise go to the model's provider |
| AIService.ValidateApiKey | AINovalServer/src/main/java/com/ainovel/server/service/impl/AIServiceImpl.java:193-212 | validateApiKey answers false for a blank key, rejects an unknown provider with "不支持的提供商: ", fails with "无法为模型 … 创建提供商实例进行验证" when no provider instance can be made, and otherwise answers what the provider answered, false when it failed; it errs exactly in those two cases and answers true exactly when a known provider was created and confirmed the key |
| AIService.ListingWithKeyGuards | AINovalServer/src/main/java/com/ainovel/server/service/impl/AIServiceImpl.java:339-353 | getModelInfosForProviderWithApiKey goes on exactly when the provider name and the key are not blank and the lower-cased provider is known, and rejects a blank provider name first |
| AIService.DefaultModelInfos | AINovalServer/src/main/java/com/ainovel/server/service/impl/AIServiceImpl.java:319-335 | getDefaultModelInfos gives one description per listed model, in list order, with the provider, "<provider>的<model>模型" and 8192 tokens |
| LangChainProvider.ChatMessageOf | AINovalServer/src/main/java/com/ainovel/server/service/ai/langchain4j/LangChain4jModelProvider.java:321-335 | the message keeps the text, and is a user message exactly when the lower-cased role is neither "assistant" nor "system" |
| LangChainProvider.GenerateContent | AINovalServer/src/main/java/com/ainovel/server/service/ai/langchain4j/LangChain4jModelProvider.java:189-213 | the response carries the request id, the model name and always a finish reason; the reason is "stop" exactly when the API key is set, the chat model exists and the call replied |
| LangChainProvider.GenerateContentStream | AINovalServer/src/main/java/com/ainovel/server/service/ai/langchain4j/LangChain4jModelProvider.java:215-261 | the stream emits at most the streamed parts plus one error text, and every text is a streamed part or starts with the error prefix |
| LangChainProvider.ConvertMessages | AINovalServer/src/main/java/com/ainovel/server/service/ai/langchain4j/LangChain4jModelProvider.java:312-340 | convertToLangChain4jMessages builds, message by message, the list that puts a non-empty prompt first and then one chat message per conversation entry |
| LangChainProvider.ConvertedLength | AINovalServer/src/main/java/com/ainovel/server/service/ai/langchain4j/LangChain4jModelProvider.java:312-340 | the list has one chat message per entry, plus one for a non-empty prompt |
| LangChainProvider.ConvertedOrder | AINovalServer/src/main/java/com/ainovel/server/service/ai/langchain4j/LangChain4jModelProvider.java:312-340 | a non-empty prompt comes first as a system message, and entry i sits at position i, or i + 1 after a prompt, in the kind its role chooses |
| LangChainProvider.ConvertedTexts | AINovalServer/src/main/java/com/ainovel/server/service/ai/langchain4j/LangChain4jModelProvider.java:312-340 | no text is lost and the order is kept: the prompt, then every content |
| LangChainProvider.RoleMapping | AINovalServer/src/main/java/com/ainovel/server/service/ai/langchain4j/LangChain4jModelProvider.java:322-335 | the role, ignoring case, chooses an AI message for "assistant", a system message for "system", and a user message for "user" and every other role; the text is always the content |
| LangChainProvider.AssistantRole | AINovalServer/src/main/java/com/ainovel/server/service/ai/langchain4j/LangChain4jModelProvider.java:326-328 | a message becomes an AI message exactly when its role is "assistant" ignoring case |
| LangChainProvider.SystemRole | AINovalServer/src/main/java/com/ainovel/server/service/ai/langchain4j/LangChain4jModelProvider.java:329-331 | a message becomes a system message exactly when its role is "system" ignoring case |
| LangChainProvider.ApiEndpoint | AINovalServer/src/main/java/com/ainovel/server/service/ai/langchain4j/LangChain4jModelProvider.java:406-408 | getApiEndpoint answers either the default or the configured endpoint |
| LangChainProvider.EndpointOverrides | AINovalServer/src/main/java/com/ainovel/server/service/ai/langchain4j/LangChain4jModelProvider.java:406-408 | a configured endpoint with a char above U+0020 overrides the default; a missing one, or one of spaces and control chars only, does not |
| LangChainProvider.GenerateContentOutcome | AINovalServer/src/main/java/com/ainovel/server/service/ai/langchain4j/LangChain4jModelProvider.java:191-213 | generateContent never fails: a blank key, a missing model and a throwing call each give an "error" response ("API密钥未配置" before "模型未初始化"), and only a reply gives its text with finishReason "stop"; the model name is always set and the token counts are zero |
| LangChainProvider.StreamOutcomeShape | AINovalServer/src/main/java/com/ainovel/server/service/ai/langchain4j/LangChain4jModelProvider.java:217-261 | the stream never fails: a guard or a setup error yields a single text starting with "错误："; otherwise the partial texts pass through in order, followed by one "错误：" text when the model reports an error |
| LangChainProvider.ValidateApiKey | AINovalServer/src/main/java/com/ainovel/server/service/ai/langchain4j/LangChain4jModelProvider.java:286-306 | validateApiKey answers true only for a non-blank key and a built chat model |
| LangChainProvider.ValidationNeverFails | AINovalServer/src/main/java/com/ainovel/server/service/ai/langchain4j/LangChain4jModelProvider.java:286-306 | validateApiKey is true exactly when a non-blank key reached a built model and the test chat passed, and false (never an error) otherwise; a key of spaces is invalid |
| NovelAI.LastUserContent | AINovalServer/src/main/java/com/ainovel/server/service/impl/NovelAIServiceImpl.java:522-527 | the query is empty or the content of a message whose role is exactly "user" |
| NovelAI.ExtractQueryText | AINovalServer/src/main/java/com/ainovel/server/service/impl/NovelAIServiceImpl.java:520-532 | without messages the query is the prompt, or "" when there is none; with messages it is "" or the content of one of the "user" messages |
| NovelAI.Formatted | AINovalServer/src/main/java/com/ainovel/server/service/impl/NovelAIServiceImpl.java:540-568 | the context of at least one segment opens with the header of the first segment, numbered 1 |
| NovelAI.RagEnabled | AINovalServer/src/main/java/com/ainovel/server/service/impl/NovelAIServiceImpl.java:407-408 | RAG is on only with an "enableRag" entry of four characters, and the entry "TRUE" turns it on, case being ignored |
| NovelAI.FromDatabase | AINovalServer/src/main/java/com/ainovel/server/service/impl/NovelAIServiceImpl.java:481-511 | the request gains the system context message at its head exactly when the knowledge lookup returns a non-empty context; nothing but the message list changes, and an unchanged list means an unchanged request |
| NovelAI.Enrich | AINovalServer/src/main/java/com/ainovel/server/service/impl/NovelAIServiceImpl.java:398-473 | a request whose message list comes back unchanged is returned unchanged, and without "enableRag" on its metadata are kept |
| NovelAI.CacheKey | AINovalServer/src/main/java/com/ainovel/server/service/impl/NovelAIServiceImpl.java:812 | the key is the provider, a colon, then the model name, so both parts can be read back from it |
| NovelAI.Fetched | AINovalServer/src/main/java/com/ainovel/server/service/impl/NovelAIServiceImpl.java:796-851 | a failure changes no user's cached providers, and an invalid config, refused first, leaves the cache exactly as it was |
| NovelAI.ChosenConfig | AINovalServer/src/main/java/com/ainovel/server/service/impl/NovelAIServiceImpl.java:758-791 | every failure is an IllegalArgumentException; without a model name the config used is the validated default; a named model fails only when no config has that model name |
| NovelAI.LastUserContentIsLast | AINovalServer/src/main/java/com/ainovel/server/service/impl/NovelAIServiceImpl.java:520-528 | the query text is the content of the last message whose role is exactly "user" |
| NovelAI.NoUserMessageNoQuery | AINovalServer/src/main/java/com/ainovel/server/service/impl/NovelAIServiceImpl.java:522-528 | messages without a "user" one give an empty query |
| NovelAI.QueryText | AINovalServer/src/main/java/com/ainovel/server/service/impl/NovelAIServiceImpl.java:520-532 | extractQueryTextFromRequest takes the last user message's content, an empty text when the messages hold none, and the prompt (or an empty text) only when there are no messages |
| NovelAI.FormatRetrievedContext | AINovalServer/src/main/java/com/ainovel/server/service/impl/NovelAIServiceImpl.java:540-568 | formatRetrievedContext appends, segment by segment, the block of each segment to the builder, giving the whole formatted context |
| NovelAI.AppendSegment | AINovalServer/src/main/java/com/ainovel/server/service/impl/NovelAIServiceImpl.java:543-565 | one pass of the loop appends exactly block i of the segment and keeps what was built |
| NovelAI.BlockShape | AINovalServer/src/main/java/com/ainovel/server/service/impl/NovelAIServiceImpl.java:545-565 | block i opens with "段落 #(i+1):" and closes with the segment's text and a blank line; a scene segment carries "类型: 场景" right after its title line |
| NovelAI.BlockInPlace | AINovalServer/src/main/java/com/ainovel/server/service/impl/NovelAIServiceImpl.java:542-567 | the blocks of the earlier segments followed by block i open the whole context, so the segments appear in order |
| NovelAI.FormattedNonEmpty | AINovalServer/src/main/java/com/ainovel/server/service/impl/NovelAIServiceImpl.java:540-568 | at least one retrieved segment gives a non-empty context |
| NovelAI.WithContextMessage | AINovalServer/src/main/java/com/ainovel/server/service/impl/NovelAIServiceImpl.java:448-459 | the context message goes at the head of the conversation as a system message and every earlier message follows it unchanged; nothing else in the request changes |
| NovelAI.EnrichOutcome | AINovalServer/src/main/java/com/ainovel/server/service/impl/NovelAIServiceImpl.java:398-517 | enrichRequestWithContext leaves a request without a novel id alone, changes at most the messages and metadata, either keeps the messages or puts one context message at their head, and marks usedRag only after a successful retrieval that added the context |
| NovelAI.OptionsCount | AINovalServer/src/main/java/com/ainovel/server/service/impl/NovelAIServiceImpl.java:282 | generateNextOutlines asks for 3 options when none is given, and otherwise for the given number |
| NovelAI.GuidanceRendering | AINovalServer/src/main/java/com/ainovel/server/service/impl/NovelAIServiceImpl.java:723 | a missing or empty guidance renders as nothing; any other renders as "作者引导：" followed by the guidance |
| NovelAI.NextOutlinesRequest | AINovalServer/src/main/java/com/ainovel/server/service/impl/NovelAIServiceImpl.java:716-743 | the outline request has temperature 0.8, 2000 tokens, context enabled, the novel id, and two messages: the advisor's system message, then a user message whose content is the template with every {{context}}, then every {{numberOfOptions}}, then every {{authorGuidance}} replaced |
| NovelAI.PlainTemplateSentAsIs | AINovalServer/src/main/java/com/ainovel/server/service/impl/NovelAIServiceImpl.java:719-723 | a template with no placeholder is sent unchanged, whatever the options |
| NovelAI.GuidanceOnlyTemplate | AINovalServer/src/main/java/com/ainovel/server/service/impl/NovelAIServiceImpl.java:720-723 | a template that is only {{authorGuidance}} is sent as the rendered guidance: empty without guidance, "作者引导：" plus the guidance otherwise |
| NovelAI.CacheKeyInjective | AINovalServer/src/main/java/com/ainovel/server/service/impl/NovelAIServiceImpl.java:812 | the provider:model cache key tells pairs apart when provider names hold no colon |
| NovelAI.InvalidConfigRefused | AINovalServer/src/main/java/com/ainovel/server/service/impl/NovelAIServiceImpl.java:796-801 | a config without provider or model is refused with "无效的AI模型配置" and the cache is untouched |
| NovelAI.HitReturnsCached | AINovalServer/src/main/java/com/ainovel/server/service/impl/NovelAIServiceImpl.java:811-818 | a cached provider is returned as it is, without decrypting or creating, and the cache is unchanged |
| NovelAI.FetchedIsCached | AINovalServer/src/main/java/com/ainovel/server/service/impl/NovelAIServiceImpl.java:810-851 | fetching touches only this user's cache entry, creates it for a valid config, and caches a provider it returns under the config's key |
| NovelAI.SecondFetchHits | AINovalServer/src/main/java/com/ainovel/server/service/impl/NovelAIServiceImpl.java:810-851 | fetching again after a success returns the same provider and leaves the cache as it was |
| NovelAI.CreatedWithDecryptedKey | AINovalServer/src/main/java/com/ainovel/server/service/impl/NovelAIServiceImpl.java:823-847 | a new provider gets the config's provider, model and endpoint, and the decrypted key only when the stored key is not blank; a blank or missing key is passed on as null |
| NovelAI.FirstWithModelIsFirst | AINovalServer/src/main/java/com/ainovel/server/service/impl/NovelAIServiceImpl.java:780-782 | the chosen config is the first listed one with exactly that model name, and none is chosen when no config has it |
| NovelAI.ChosenConfigSource | AINovalServer/src/main/java/com/ainovel/server/service/impl/NovelAIServiceImpl.java:758-791 | a named model only ever uses a listed config with that name; a missing or empty name uses the default config, or fails when there is none |
| NovelAI.ProviderCache.constructor | AINovalServer/src/main/java/com/ainovel/server/service/impl/NovelAIServiceImpl.java:66 | the provider cache starts empty |
| NovelAI.ProviderCache.GetOrCreate | AINovalServer/src/main/java/com/ainovel/server/service/impl/NovelAIServiceImpl.java:796-862 | getOrCreateAIModelProvider answers and updates the cache as the fetch rules say |
| NovelAI.ProviderCache.GetAIModelProvider | AINovalServer/src/main/java/com/ainovel/server/service/impl/NovelAIServiceImpl.java:758-791 | getAIModelProvider fails without touching the cache when no config is chosen, and otherwise gets or creates the chosen config's provider |
| NovelAI.ProviderCache.ClearUserProviderCache | AINovalServer/src/main/java/com/ainovel/server/service/impl/NovelAIServiceImpl.java:882-884 | clearUserProviderCache drops that user's providers and keeps every other user's |
| NovelAI.ProviderCache.ClearAllProviderCache | AINovalServer/src/main/java/com/ainovel/server/service/impl/NovelAIServiceImpl.java:892-894 | clearAllProviderCache empties the cache |
| NovelAI.ProviderCache.SetUseLangChain4j | AINovalServer/src/main/java/com/ainovel/server/service/impl/NovelAIServiceImpl.java:868-873 | switching the implementation empties the cache, so every provider is created again |
| AIChat.NamedModelNeverFallsBack | AINovalServer/src/main/java/com/ainovel/server/service/impl/AIChatServiceImpl.java:58-114 | a named model only ever gets its own validated config, after the model lookup succeeded; without a name the default config is preferred to the first validated one, and creation fails exactly when there is neither |
| AIChat.UpdateRules | AINovalServer/src/main/java/com/ainovel/server/service/impl/AIChatServiceImpl.java:128-177 | updates without a title, status, metadata or config change leave the session alone; a config switch fails exactly when the new config is missing or not validated, and otherwise is applied; the id, owner and message count never change |
| AIChat.Excluding | AINovalServer/src/main/java/com/ainovel/server/service/impl/AIChatServiceImpl.java:392-398 | the filter keeps exactly the messages other than the excluded one, and adds none |
| AIChat.InsertByTimeAscending | AINovalServer/src/main/java/com/ainovel/server/service/impl/AIChatServiceImpl.java:396 | one insertion into a list sorted by creation time keeps it sorted |
| AIChat.InsertByTimeContents | AINovalServer/src/main/java/com/ainovel/server/service/impl/AIChatServiceImpl.java:396 | one insertion adds exactly that message to the list's contents, one longer |
| AIChat.SortByTimeSorts | AINovalServer/src/main/java/com/ainovel/server/service/impl/AIChatServiceImpl.java:396 | the sort by creation time yields an ascending permutation of the messages |
| AIChat.RecentHistory | AINovalServer/src/main/java/com/ainovel/server/service/impl/AIChatServiceImpl.java:392-398 | getRecentMessages gives at most limit messages, in ascending time, none of them the excluded one: the first limit fetched messages other than it, reordered |
| AIChat.RequestFromHistory | AINovalServer/src/main/java/com/ainovel/server/service/impl/AIChatServiceImpl.java:366-390 | buildAIRequest sends the roles and contents of the recent history (the fetched messages other than the new one) in order, followed by the new user message, with the model and the session's user; temperature 0.7 and 1024 tokens by default, and, for a metadata value of the wrong type, the ClassCastException the JVM raises, whose message names the value's class and the target class (java.lang.Double for temperature, checked first, java.lang.Integer for maxTokens) |
| AIChat.IntegerTemperatureReported | AINovalServer/src/main/java/com/ainovel/server/service/impl/AIChatServiceImpl.java:383 | a session whose metadata holds the integer temperature 1 fails the build with a ClassCastException, and sendMessage reports "获取AI响应失败: " followed by "class java.lang.Integer cannot be cast to class java.lang.Double (…)" |
| AIChat.EmptyChunksNoText | AINovalServer/src/main/java/com/ainovel/server/service/impl/AIChatServiceImpl.java:314-335 | a stream whose chunks are all empty has no text, so no reply is stored for it |
| AIChat.Relay | AINovalServer/src/main/java/com/ainovel/server/service/impl/AIChatServiceImpl.java:344-354 | each chunk is passed on, in order, as a STREAM_CHUNK message, and the chunks are joined into the full reply |
| AIChat.WithoutSession | AINovalServer/src/main/java/com/ainovel/server/service/impl/AIChatServiceImpl.java:182 | deleteBySessionId keeps exactly the messages of other sessions |
| AIChat.StrangerErasesMessages | AINovalServer/src/main/java/com/ainovel/server/service/impl/AIChatServiceImpl.java:180-187 | as written, a user who does not own a session still erases all its messages while the session stays |
| AIChat.DeleteSessionRespectsOwnership | AINovalServer/src/main/java/com/ainovel/server/service/impl/AIChatServiceImpl.java:180-187 | a stranger changes nothing; the owner loses exactly that session and its messages, and every other message stays |
| AIChat.ChatStore.constructor | AINovalServer/src/main/java/com/ainovel/server/service/impl/AIChatServiceImpl.java:44-55 | the store starts with no session and no message |
| AIChat.ChatStore.FindSession | AINovalServer/src/main/java/com/ainovel/server/service/impl/AIChatServiceImpl.java:117-119 | getSession finds the session exactly when the user owns it |
| AIChat.ChatStore.CreateSession | AINovalServer/src/main/java/com/ainovel/server/service/impl/AIChatServiceImpl.java:58-104 | createSession stores an ACTIVE session with no messages under the chosen config, or fails without storing anything |
| AIChat.ChatStore.UpdateSession | AINovalServer/src/main/java/com/ainovel/server/service/impl/AIChatServiceImpl.java:128-177 | updateSession answers nothing for a session the user does not own, fails without a change when the config switch is refused, and saves with a new updatedAt only when something changed and the status is not FAILED |
| AIChat.ChatStore.SendMessage | AINovalServer/src/main/java/com/ainovel/server/service/impl/AIChatServiceImpl.java:189-264 | sendMessage fails without a change for a missing session or an unvalidated config; otherwise the user message is saved; an unreadable key, a request that cannot be built (a metadata cast failure, reported as "获取AI响应失败: " followed by the JVM's cast message naming both classes) or a failed AI call store nothing more, and only a built request and an AI reply add the assistant message and count both messages on the session |
| AIChat.ChatStore.StreamMessage | AINovalServer/src/main/java/com/ainovel/server/service/impl/AIChatServiceImpl.java:267-364 | streamMessage passes every chunk on; after the stream a non-blank reply is saved and the session's count rises by two, a blank one saves no reply but still counts the user message (count plus one) and sets lastMessageAt, and a failed stream saves nothing more than the user message and leaves the session alone; a request that cannot be built (a metadata cast failure) ends the stream with that ClassCastException unwrapped, its message naming both classes,, before any chunk, after the user message was saved |
| AIChat.ChatStore.FinishStream | AINovalServer/src/main/java/com/ainovel/server/service/impl/AIChatServiceImpl.java:308-360 | the end of streamMessage: chunks relayed in order; a failed stream changes nothing, a completed one sets lastMessageAt and, for a non-blank text, stores the reply and counts it |
| AIChat.ChatStore.DeleteChatSession | AINovalServer/src/main/java/com/ainovel/server/service/impl/AIChatServiceImpl.java:180-187 | deleteSession as written: the session's messages are removed for whoever asks, the session itself only for its owner |
| NextOutlines.KindOf | AINovalServer/src/main/java/com/ainovel/server/service/impl/NextOutlineServiceImpl.java:266-280 | a kind other than a new chapter is chosen only by its own insert type name, and a missing insert type means a new chapter |
| NextOutlines.NewChapterPlaced | AINovalServer/src/main/java/com/ainovel/server/service/impl/NextOutlineServiceImpl.java:653-727 | a novel that is not found gives nothing; a placement answers NEW_CHAPTER with the outline's id and the new chapter's id |
| NextOutlines.ScenePlaced | AINovalServer/src/main/java/com/ainovel/server/service/impl/NextOutlineServiceImpl.java:762-812 | a missing target scene id fails; a placement needs a target with a sequence, adds no act or chapter, and puts the scene in the target's chapter at the target's sequence (before) or at that sequence + 1 wrapped to 32 bits (after) |
| NextOutlines.Placed | AINovalServer/src/main/java/com/ainovel/server/service/impl/NextOutlineServiceImpl.java:255-284 | a chapter is added exactly for the NEW_CHAPTER kind, an act only together with a chapter, and the new scene carries the outline's title and content |
| NextOutlines.JsonOutlines | AINovalServer/src/main/java/com/ainovel/server/service/impl/NextOutlineServiceImpl.java:439-461 | the JSON parse never yields an option, and its only failure is a JsonProcessingException |
| NextOutlines.WholeReply | AINovalServer/src/main/java/com/ainovel/server/service/impl/NextOutlineServiceImpl.java:566-595 | the single option's title has at most 50 characters and its content is no longer than the reply |
| NextOutlines.ParsedOutlines | AINovalServer/src/main/java/com/ainovel/server/service/impl/NextOutlineServiceImpl.java:413-598 | a "标题:…内容:…" reply gives exactly one option; without that match a blank reply gives just the numbered sections' options |
| NextOutlines.Step | AINovalServer/src/main/java/com/ainovel/server/service/impl/NextOutlineServiceImpl.java:188-232 | a completing chunk moves its option from pending to saved, any other chunk leaves it pending, and the context cache gains at most that option's entry |
| NextOutlines.Streamed | AINovalServer/src/main/java/com/ainovel/server/service/impl/NextOutlineServiceImpl.java:139-232 | saved options and cached contexts are never lost, and every chunk's option ends up pending or saved |
| NextOutlines.KindOfNames | AINovalServer/src/main/java/com/ainovel/server/service/impl/NextOutlineServiceImpl.java:266-280 | each of the four insert types selects its own placement, and every other value, a missing one included, selects NEW_CHAPTER |
| NextOutlines.FindLastChapter | AINovalServer/src/main/java/com/ainovel/server/service/impl/NextOutlineServiceImpl.java:686-702 | the search stops at the first act with the id and answers its last chapter, or nothing when no act has the id |
| NextOutlines.PlacementRules | AINovalServer/src/main/java/com/ainovel/server/service/impl/NextOutlineServiceImpl.java:737-812 | BEFORE_SCENE puts the scene at the target's sequence and AFTER_SCENE one past it, in the target's chapter; CHAPTER_END fails exactly without a chapter id and appends to that chapter; a missing scene id fails with "目标场景ID不能为空"; the response names the outline and the kind used |
| NextOutlines.NewChapterRules | AINovalServer/src/main/java/com/ainovel/server/service/impl/NextOutlineServiceImpl.java:653-727 | a new chapter is always added, an act "第一卷" only when the novel has none, a scene exactly when asked, at the end of the new chapter; with acts present the new chapter is the last one of the first act |
| NextOutlines.KeptSections | AINovalServer/src/main/java/com/ainovel/server/service/impl/NextOutlineServiceImpl.java:535-540 | the kept sections are trimmed and neither empty nor a bare option heading |
| NextOutlines.HeadingsAreSkipped | AINovalServer/src/main/java/com/ainovel/server/service/impl/NextOutlineServiceImpl.java:536-540 | a reply whose sections are all blank or bare headings yields no section option |
| NextOutlines.SectionDraftsKept | AINovalServer/src/main/java/com/ainovel/server/service/impl/NextOutlineServiceImpl.java:535-563 | the k-th option is the k-th kept section under the k-th heading title, or "剧情选项 k+1" once the titles run out |
| NextOutlines.SectionOutlines | AINovalServer/src/main/java/com/ainovel/server/service/impl/NextOutlineServiceImpl.java:535-563 | the section loop of parseTextResponse builds exactly those options, in order |
| NextOutlines.WholeReplyTitle | AINovalServer/src/main/java/com/ainovel/server/service/impl/NextOutlineServiceImpl.java:566-595 | a non-blank reply with no kept section becomes one option: its first line as title when that line has at most 50 chars, the rest as content; otherwise "剧情选项" and the whole trimmed reply |
| NextOutlines.ParsedOutlinesRules | AINovalServer/src/main/java/com/ainovel/server/service/impl/NextOutlineServiceImpl.java:413-598 | the JSON stage never yields an option, so the text parser decides: a title/content match gives one option, otherwise the section options or the whole reply; a non-blank reply always gives at least one |
| NextOutlines.StepKeepsKeyed | AINovalServer/src/main/java/com/ainovel/server/service/impl/NextOutlineServiceImpl.java:189-221 | every pending and saved option stays stored under its own id |
| NextOutlines.StepSaves | AINovalServer/src/main/java/com/ainovel/server/service/impl/NextOutlineServiceImpl.java:188-232 | a completing chunk saves its option, with this chunk's text, and removes it from the pending ones; any other chunk saves nothing; a chunk that opens an option caches its context (the step of a context with both chapter ids; under a null one the opening chunk throws instead, see OutlineService.Feed) |
| NextOutlines.PendingContent | AINovalServer/src/main/java/com/ainovel/server/service/impl/NextOutlineServiceImpl.java:188-221 | an option streamed without completing holds the text of every chunk but the first, whose text is dropped when it opens the option |
| NextOutlines.ErroredOptionSavedAtCompletion | AINovalServer/src/main/java/com/ainovel/server/service/impl/NextOutlineServiceImpl.java:224-249 | an option whose final chunk carries an error is not saved by that chunk; it is saved when the stream completes, and not when the stream fails |
| NextOutlines.ErrorChunkSavesNothing | AINovalServer/src/main/java/com/ainovel/server/service/impl/NextOutlineServiceImpl.java:356-366 | a failed regeneration ends with one final chunk reading "重新生成失败: ..."; it counts as a completion exactly when the error has no message (a NullPointerException, whose chunk reads "重新生成失败: null" and carries no error) |
| NextOutlines.OutlineService.constructor | AINovalServer/src/main/java/com/ainovel/server/service/impl/NextOutlineServiceImpl.java:51-89 | the service starts with no stored outline and an empty context cache |
| NextOutlines.OutlineService.SaveNextOutline | AINovalServer/src/main/java/com/ainovel/server/service/impl/NextOutlineServiceImpl.java:255-284 | saveNextOutline fails with "大纲不存在" for an unknown outline; otherwise it marks the outline selected and saves it first, then places it by its insert type |
| NextOutlines.OutlineService.Feed | AINovalServer/src/main/java/com/ainovel/server/service/impl/NextOutlineServiceImpl.java:188-232 | one chunk of the stream updates the pending options, the repository and the context cache as the step rules say; a chunk opening an option under a null start or end chapter id throws a NullPointerException after the outline is pending and before anything is cached or saved; no cached context ever holds a null |
| NextOutlines.OutlineService.ConsumeStream | AINovalServer/src/main/java/com/ainovel/server/service/impl/NextOutlineServiceImpl.java:139-252 | generateNextOutlinesStream feeds every chunk in order, then saves the pending options when the stream completes, and drops them when it fails; with a null start or end chapter id the first chunk fails the stream with a NullPointerException and nothing is saved or cached |
| NextOutlines.OutlineService.RegenerationContext | AINovalServer/src/main/java/com/ainovel/server/service/impl/NextOutlineServiceImpl.java:287-340 | regeneration needs the config; it takes the cached context, or else the stored outline's original parameters, which it caches, and fails with "未找到指定的大纲选项: " when there is neither; an original parameter that is null fails with a NullPointerException before anything is cached, so every context it returns is complete |
| NextOutlines.OutlineService.RecordRegeneration | AINovalServer/src/main/java/com/ainovel/server/service/impl/NextOutlineServiceImpl.java:374-389 | a completing regeneration chunk records the config used and, when it has one, the new title; other chunks change nothing |

## Left out

- Network and storage I/O are not modelled: HTTP, the AMQP broker, MongoDB, Chroma and the language-model calls. Reactive scheduling and concurrency are not modelled either. Each external call is a parameter holding its outcome.
- Random ids and the clock are not modelled. UUIDs and `LocalDateTime.now()` are parameters.
- Floating point is left out: cost estimates, efficiency figures and prices. Where a double only feeds an integer (the continuation percent), the exact quotient is used, because it truncates the same way.
- The optimistic-lock retry loop with its sleeps in the task state service is left out. Only its successful outcome is modelled.
- TaskModel.BackgroundTask.IncrementRetryCount: does not model the 32-bit wrap-around of the retry counter, because a counter bounded by the retry limit never reaches it.
- Characters are Unicode scalar values, not UTF-16 code units. Lengths of text outside the Basic Multilingual Plane differ.
- JStrings.LowerChar: case mapping (`toLowerCase`, `toUpperCase`, `equalsIgnoreCase`) is ASCII-only, because Java's Unicode case tables are not modelled. A name such as "ıtem" (dotless i) matches ITEM under `SettingType.fromValue` in Java but is OTHER in the model. The same gap affects SettingTypes.FromValue, PromptTemplates.Listed, AIService.FirstProvider, ImportService.FindParser and LangChainProvider.RoleMapping.
- NovelSettings.Score: scores are exact integer tenths, while `calculateItemScore` adds doubles, and double sums can round. Take item B, a user's item of priority 3 (0.6 + 0.3 = 0.8999999999999999), and item A, an item of the current scene of priority 4 (0.4 + 0.5 = 0.9). With the items found in the order [B, A] and topK 1, Java returns [A], while the model scores both 9 tenths, keeps the found order and returns [B]. Ordering decided by double rounding is not captured.
- TaskConsumption.OutcomeOf: `ExecutionResult.java` has no `isNonRetryable` or `isCancelled`, though `TaskConsumer.java` calls both. The model reads them as "failed and not retryable" and "never", so the cancellation branch is unreachable.
- TaskState.SumOfValues: the sum of the sub-task status counts is unbounded. The 32-bit overflow of Java's `int` stream sum is not modelled.
- ContinueWritingAggregation.ReportedPercent: the range 0..100 is promised only for a positive total within `int` that is not yet finished. A report against a total of 0 stores -2147483599 (ContinueWritingAggregation.ZeroTotalPercentWraps).
- UserService: the `User` and `AIModelConfig` classes are not part of this model. The `aiModelConfigs` field and the configuration fields are rebuilt from the calls `UserServiceImpl` makes.
- `Long.parseLong` accepts non-ASCII digits. The model accepts ASCII digits only.
- NextOutlines: the matches of the regular expressions in `parseTextResponse` are taken as parameters (the split sections, the heading titles, the title/content match). The 30-minute expiry of the option context cache is not modelled.
- The save of parsed outlines in `generateNextOutlines` is not modelled, and neither are the request defaults of the outline endpoints.
- NextOutlines.PendingContent: the first chunk of a streamed option contributes only its title. The model states this as it is rather than correcting it.
- AIChat: the `AIChatSession` and `AIChatMessage` classes are not part of this model. Their fields come from the builder calls in the service.
- AIChat.IntegerTemperatureReported: the cast message follows the wording of HotSpot since JDK 11, and a nested metadata map is taken to be read back as a java.util.LinkedHashMap.
- AIChat.ChatStore.SendMessage: when the AI call fails after the user message was saved, the session's message count is left unsaved, as in the source.
- `NextOutline.java` lacks the `original*` fields that the service sets. The model follows the service.
- The domain classes of novel settings (`NovelSettingItem`, `SettingGroup`, `SettingRelationship`) are not part of this model. The fields the service uses are modelled.
- The `OptimizationStyle` enum is not part of this model. Only its three constants named by the controller are modelled.
- The domain `PromptTemplate.java` fields differ from those the service and the DTO use. The model follows the service.
- `AIFeatureType` has only two constants, so the DTO's default branch cannot be reached.
- NovelAI: `summarizeScene`, `generateSceneFromSummary` and the suggestion, revision and character/plot/setting generation requests are not modelled. They fill prompt templates and call a provider.
- Ids of tasks submitted from inside an executable are not modelled. The content requests are returned as values.
- The event publication of the task submission service is not modelled, nor is the null check of `getSubTaskStatusSummary`.
- UserService: `findUserById`, `findUserByUsername` and `getUserDefaultAIModelConfig` are plain lookups and are not modelled.
- SceneService: the finders and deletes of the scene service are not modelled.
- NovelSettings: `getNovelSettingItems`, `getNovelSettingGroups`, the stubs `extractSettingsFromText` and `searchSettingItems`, and indexing into the vector store are not modelled. The keyword part of `findRelevantSettings` is not modelled either.
- NovelSettings.ScoreContributions: the group part of `calculateItemScore` has no effect on the score in the source, so the model leaves it out.
- EmbeddingStore: the backoff and retry counts of `withRetry` are not modelled. The mapping of find results (UUID ids, metadata rendered as text) is left to the store's outcome.
- SummaryExecution: a missing scene is a `ResourceNotFoundException` from `findSceneById`, so the executable's `switchIfEmpty` never fires and is not modelled.
- BatchSummaryExecution: a null author and an author with a null id are both modelled as a missing author id, which leads to the same null-pointer failure.

## Findings

The operations of the model run the code as written, so each finding below is part of their contracts. Each corrected definition stands beside the operation, with the intended property proved about it.

| source | as written | input that shows it | evidently intended | confidence | as-written member | corrected member |
|---|---|---|---|---|---|---|
| AINovalServer/performance_test_script.js:43-45 | the millisecond remainder is printed without zero padding | 1005 ms prints as "1.5s", which reads as 1500 ms | pad the remainder to three digits: "1.005s" | high; not executed | PerfScript.FormatDurationMisreads1005 | PerfScript.FormatDurationPaddedReadsBack |
| AINovalServer/src/main/java/com/ainovel/server/service/impl/TxtNovelParser.java:28-31 | the Roman-numeral alternative matches any line that starts with one of I V X L C D M | the prose line "Mary smiled." is taken for a chapter title | a Roman numeral followed by the end of the line or a separator | high; not executed | TxtParser.AsWrittenTakesSentenceForTitle | TxtParser.WordAfterNumeralNotTitle |
| AINovalServer/src/main/java/com/ainovel/server/task/listener/ContinueWritingStateAggregator.java:343-365 | the percent divides by the total even when it is 0, and the `(int)` of Infinity plus 50 wraps around | a report against a total of 0 stores the percent -2147483599 | no percent beyond 100 when the total is unknown | high; not executed | ContinueWritingAggregation.ZeroTotalPercentWraps | ContinueWritingAggregation.PercentInRange |
| AINovalServer/src/main/java/com/ainovel/server/task/listener/BatchSummaryStateAggregator.java:281-298 | the final status COMPLETED_WITH_ERRORS is computed, but the parent is recorded as COMPLETED | a batch of two with one success and one failure is stored as COMPLETED | store the computed final status | high; not executed | BatchSummaryAggregation.PartialFailureStoredAsCompleted | BatchSummaryAggregation.StoredStatusShowsFailures |
| AINovalServer/src/main/java/com/ainovel/server/task/service/impl/TaskSubmissionServiceImpl.java:86-101 | the boolean result of `sendTask` is ignored | a broker failure reported as false leaves the task queued, and the submission is reported as accepted | mark the task failed when nothing was sent | medium; not executed | TaskSubmission.UnsentTaskReportedSubmitted | TaskSubmission.SubmitDiffersOnlyWhenNotSent |
| AINovalServer/src/main/java/com/ainovel/server/task/executor/GenerateSingleChapterTaskExecutable.java:266-295 | kept sections are relabelled `chapterIndex - (length - i)` | the chapter just added, the last section, is labelled chapterIndex - 1 | the last section keeps the number chapterIndex | high; not executed | SingleChapterExecution.CurrentChapterRelabelled | SingleChapterExecution.CurrentChapterKeepsLabel |
| AINovalServer/src/main/java/com/ainovel/server/service/impl/SceneServiceImpl.java:129-139 | `switchIfEmpty(createScene(scene))` builds the creation eagerly, and that sets a missing sequence to 0 before the lookup | upserting a stored scene at sequence 5 without a sequence stores sequence 0 | an upsert of a stored scene is an update | high; not executed | SceneService.UpsertLosesStoredSequence | SceneService.UpsertOfStoredIsUpdate |
| AINovalServer/src/main/java/com/ainovel/server/task/executor/BatchGenerateSummaryTaskExecutable.java:141-153 | the skip progress sets both the processed and the skipped count to the number skipped | with three scenes of which one is skipped, the first child's report finishes the parent while the second child still runs | processed 0 and skipped n, so the parent finishes after every submitted child | high; not executed | BatchSummaryExecution.SkippedScenesCountedTwice | BatchSummaryExecution.FinishesAfterEverySubmittedChild |
| AINovalServer/src/main/java/com/ainovel/server/task/executor/GenerateSummaryTaskExecutable.java:101-114 | the result of the retried atomic update is ignored | another writer's edit makes the first write miss and the retry fails, yet the task reports success | report success only when the summary was stored | medium; not executed | SummaryExecution.RetryFailureReportedAsStored | SummaryExecution.StoredSummaryIsReported |
| AINovalServer/src/main/java/com/ainovel/server/service/impl/AIChatServiceImpl.java:180-187 | the messages are deleted by session id before ownership is checked | a user who does not own a session erases all its messages, while the session stays | only the owner deletes the session and its messages | high; not executed | AIChat.StrangerErasesMessages | AIChat.DeleteSessionRespectsOwnership |
