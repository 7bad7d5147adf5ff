# 1koro, modelled in Dafny

1koro is a personal AI agent. Its memory lives in a directory: three core files (identity, user, state), daily logs, and weekly and monthly summaries. Chat sessions are stored there as well. The agent talks to a language model and lets it call tools over that memory. The same memory tools are also exposed to outside clients through a Model Context Protocol endpoint.

This project models the agent's local bookkeeping:

- the memory store, in two revisions: a validated one (`src/memory.rs`) and an older unvalidated one (`src/memory/*.rs`);
- the session store;
- prompt assembly;
- the tool registry and its eight tools;
- the JSON-RPC endpoint;
- the chat-message model and the Anthropic Messages API conversion;
- skill discovery;
- configuration defaults and the first-run layout.

Revisions that disagree stay in separate modules and are not reconciled: `Memory` vs `MemoryFiles`/`MemoryLogs`/`MemorySummary`/`MemoryCore`, and `Llm` vs `LlmProviders`.

How the model is shaped:

- **Memory directory.** It is a `map<string, string>` from a path relative to the base directory to the file's contents, for example `core/state.md` or `logs/daily/2026-02-17.md`. A directory listing is the set of names directly under a prefix. `read_dir` followed by `sort_by_key(file_name)` is that set in increasing byte order.
- **Classes.** Where the source changes state, a class holds that state and its methods are proved against pure functions of the old state. The classes are the memory managers, the session store, the tool registry, the endpoint and the first-run disk.
- **Loops.** Loops in the source are loops here, with invariants tying them to back-recursive specification functions. These are the search over logs, the range selection, session loading, skill collection, message conversion, reply decoding and prompt building.
- **The outside world as parameters.** The following are passed in rather than modelled:
  - the local date (`today`) and the home directory;
  - path resolution (`canonicalize`) and reads outside the memory directory;
  - the hash behind session file names;
  - JSON parsing and serialization;
  - the HTTP reply of a chat request, and the outcome of the two file-system calls of a session save.

## Model

| member | source | states |
|---|---|---|
| Memory.CoreAllowLists | src/memory.rs:7-8 | exactly identity.md, user.md and state.md are readable; exactly user.md and state.md are writable; every writable file is readable |
| Memory.CoreValidatorExamples | src/memory.rs:215-230 | the allow-list unit tests: the three names pass; "../etc/passwd", "../../secret", "" and "identity.md" (for writing) are refused |
| Memory.DateValidText | src/memory.rs:39-56 | whatever validate_date accepts is the four-digit/two-digit/two-digit rendering of a year, a month 1..12 and a day 1..31 |
| Memory.DateTextValid | src/memory.rs:39-56 | every such rendering is accepted; there is no per-month day limit |
| Memory.DateValidIff | src/memory.rs:39-56 | validate_date accepts a string exactly when it is a calendar-shaped YYYY-MM-DD |
| Memory.WeekValidText | src/memory.rs:58-73 | an accepted week id is YYYY-Wnn with week 1..53 |
| Memory.WeekTextValid | src/memory.rs:58-73 | every YYYY-Wnn with week 1..53 is accepted |
| Memory.WeekValidIff | src/memory.rs:58-73 | validate_week_id accepts exactly the YYYY-Wnn ids with week 1..53 |
| Memory.MonthValidText | src/memory.rs:75-89 | an accepted month id is YYYY-MM with month 1..12 |
| Memory.MonthTextValid | src/memory.rs:75-89 | every YYYY-MM with month 1..12 is accepted |
| Memory.MonthValidIff | src/memory.rs:75-89 | validate_month_id accepts exactly the YYYY-MM ids with month 1..12 |
| Memory.Pad2OfDigits | src/memory.rs:50-51 | two ASCII digits are the two-digit rendering of the number `parse::<u32>` reads from them |
| Memory.Pad4OfDigits | src/memory.rs:44 | four ASCII digits are the four-digit rendering of some year below 10000 |
| Memory.DateValidatorExamples | src/memory.rs:233-239 | the format cases of the validate_date unit test, including "2026-02-17/../../x" being refused |
| Memory.DateRangeExamples | src/memory.rs:240-245 | the range cases of the validate_date unit test: month 00 and 13, day 00 and 32, and 99-99 are refused |
| Memory.WeekValidatorExamples | src/memory.rs:249-259 | the validate_week_id unit test, W53 accepted, W00 and W54 refused |
| Memory.MonthValidatorExamples | src/memory.rs:262-271 | the validate_month_id unit test, months 00 and 13 refused |
| Memory.DateIdSafe | src/memory.rs:160-161 | an accepted date contains no '/' and no '.' |
| Memory.WeekIdSafe | src/memory.rs:172-173 | an accepted week id contains no '/' and no '.' |
| Memory.MonthIdSafe | src/memory.rs:182-183 | an accepted month id contains no '/' and no '.' |
| Memory.ValidatedIdsAreSafe | src/memory.rs:159-189 | an id accepted by any of the three validators contains no '/' and no '.', so it cannot climb out of its directory |
| Memory.SafeIdPath | src/memory.rs:161 | a non-empty id without '/' or '.' gives a file name "{id}.md" directly inside its directory, whose stem is the id and whose extension is "md" |
| Memory.ReadCore | src/memory.rs:93-98 | a name outside the allow-list fails with the validation error before any lookup; an allowed name reads its file or fails when it is missing |
| Memory.WriteCoreThenRead | src/memory.rs:93-105 | write_core succeeds exactly for writable names; what was written reads back and every other path keeps its contents |
| Memory.ReadDailyLog | src/memory.rs:159-167 | an invalid date fails before any lookup; a valid one gives Some(contents) exactly when the log exists, None otherwise |
| Memory.ReadWeeklySummary | src/memory.rs:171-179 | an invalid week id fails; a valid one gives the summary exactly when it exists |
| Memory.ReadMonthlySummary | src/memory.rs:181-189 | an invalid month id fails; a valid one gives the summary exactly when it exists |
| Memory.WeeklyWriteThenRead | src/memory.rs:171-198 | a weekly write reads back, and leaves every other week and every month as it was |
| Memory.MonthlyWriteThenRead | src/memory.rs:181-207 | a monthly write reads back, and leaves every other month and every week as it was |
| Memory.MemoryManager.constructor | src/memory.rs:15-19 | the manager starts over the given memory directory |
| Memory.MemoryManager.WriteCore | src/memory.rs:100-105 | a refused name changes nothing and returns the error; an allowed one overwrites core/{name} alone |
| Memory.MemoryManager.AppendLog | src/memory.rs:111-131 | only today's log changes; it becomes its old contents (or the header "# {today}" and a blank line when empty) followed by "- {entry}" |
| Memory.MemoryManager.WriteWeeklySummary | src/memory.rs:191-198 | a refused id changes nothing; an accepted one overwrites logs/weekly/{id}.md alone |
| Memory.MemoryManager.WriteMonthlySummary | src/memory.rs:200-207 | a refused id changes nothing; an accepted one overwrites logs/monthly/{id}.md alone |
| Memory.MemoryManager.SearchLogs | src/memory.rs:133-157 | the nested loops give exactly the search's hits |
| Store.DailyPath | src/memory/logs.rs:61-63 | the log path is logs/daily/ then the date then ".md", with the date recoverable from it |
| Store.Lookup | src/memory/mod.rs:40-44 | an existing file reads as Some(contents), a missing one as None |
| Store.PathsInjective | src/memory/summary.rs:7 | different ids give different daily, weekly and monthly paths |
| Store.SummaryNamespacesDisjoint | src/memory/summary.rs:16 | no weekly path is a monthly path |
| Store.AppendedLog | src/memory/logs.rs:17-21 | an empty or missing log becomes "# {today}\n\n- {entry}\n"; a non-empty one keeps its contents as a prefix and gains "- {entry}\n" |
| Store.AppendLogTo | src/memory/logs.rs:10-23 | append_log creates or changes today's log and no other file |
| Store.Listing | src/memory/logs.rs:36-39 | the listing is strictly increasing and holds exactly the names directly inside the directory |
| Store.LineHitsSound | src/memory/logs.rs:46-52 | every hit of a file is "[stem] line" for one of its lines that matches the query case-insensitively |
| Store.LineHitsComplete | src/memory/logs.rs:46-52 | every matching line gives its hit |
| Store.MatchingLines | src/memory/logs.rs:46-53 | the inner loop gives the hits of one file, in line order |
| Store.HitsInSound | src/memory/logs.rs:42-56 | every hit comes from a listed .md file and one of its matching lines |
| Store.HitsInComplete | src/memory/logs.rs:42-56 | every matching line of every listed .md file is reported |
| Store.SearchHitsExactly | src/memory/logs.rs:28-59 | the hits are exactly the matching lines of the daily .md files, ordered by file name and then by line |
| Store.EmptyQueryMatchesEveryLine | src/memory/logs.rs:41-47 | the empty query reports every line of every daily .md file |
| Store.NoDailyDirNoHits | src/memory/logs.rs:32-34 | without a logs/daily directory the search finds nothing |
| MemoryFiles.CoreKey | src/memory/mod.rs:22 | a relative name lands under core/, an absolute one replaces the path |
| MemoryFiles.CoreNamesUnchecked | src/memory/mod.rs:21-31 | this revision accepts any name: identity.md is writable and "/etc/passwd" leaves the core directory |
| MemoryFiles.RangeInExactly | src/memory/mod.rs:65-78 | a pair is selected exactly when it is the stem and contents of a listed .md file whose stem lies in [start, end] |
| MemoryFiles.LogsInRangeExactly | src/memory/mod.rs:60-78 | the range holds exactly the (stem, contents) pairs of daily .md files with start <= stem <= end, compared byte-wise and inclusive |
| MemoryFiles.EmptyRangeSelectsNothing | src/memory/mod.rs:73 | a start after the end selects nothing |
| MemoryFiles.NoDailyDirEmptyRange | src/memory/mod.rs:56-58 | without a logs/daily directory the range is empty |
| MemoryFiles.MemoryManager.constructor | src/memory/mod.rs:15-19 | the manager starts over the given memory directory |
| MemoryFiles.MemoryManager.ReadCore | src/memory/mod.rs:21-25 | any name reads its file under core/, or fails naming the path when it is missing |
| MemoryFiles.MemoryManager.WriteCore | src/memory/mod.rs:27-31 | any name is written; it reads back and every name with a different path reads as before |
| MemoryFiles.MemoryManager.ReadDailyLog | src/memory/mod.rs:38-45 | without validation, the log of any date string is Some(contents) when it exists and None otherwise |
| MemoryFiles.MemoryManager.ReadDailyLogsRange | src/memory/mod.rs:48-81 | the loop gives exactly the range selection |
| MemoryFiles.MemoryManager.ReadHeartbeat | src/memory/mod.rs:84-91 | heartbeat.md is Some(contents) when it exists and None otherwise |
| MemoryLogs.AppendLog | src/memory/logs.rs:9-25 | read, extend and overwrite: the new directory is exactly the append of Store.AppendLogTo |
| MemoryLogs.SearchLogs | src/memory/logs.rs:28-59 | the nested loops give exactly the search's hits |
| MemorySummary.ReadWeeklySummary | src/memory/summary.rs:6-13 | a week never written reads as None; a written one as its contents |
| MemorySummary.ReadMonthlySummary | src/memory/summary.rs:15-22 | a month never written reads as None; a written one as its contents |
| MemorySummary.WriteWeeklySummary | src/memory/summary.rs:24-31 | the week reads back the new contents; other weeks and every month read as before |
| MemorySummary.WriteMonthlySummary | src/memory/summary.rs:33-40 | the month reads back the new contents; other months and every week read as before |
| MemorySummary.NamespacesIndependent | src/memory/summary.rs:25-38 | a weekly write never changes a monthly read, and the other way round |
| MemoryCore.CoreOrEmpty | src/memory/core.rs:8-10 | an unreadable core file counts as the empty string |
| MemoryCore.CoreSegments | src/memory/core.rs:8-10 | the three segments are identity.md, user.md and state.md, in that order |
| MemoryCore.BuildCoreContext | src/memory/core.rs:7-15 | the block is the three segments joined by "\n\n---\n\n"; it never fails |
| MemoryCore.UpdateState | src/memory/core.rs:18-20 | only state.md changes; afterwards it is the third segment of the block and the other two are unchanged |
| Sessions.Hex | src/session.rs:88 | `{:016x}` renders exactly k lower-case hexadecimal digits |
| Sessions.HexInjective | src/session.rs:88 | below 16^k, different numbers have different renderings |
| Sessions.SessionFilename | src/session.rs:85-89 | a session file name is 16 hex digits, with no '.' and no '/' |
| Sessions.FilenamesDistinct | src/session.rs:85-89 | keys whose 64-bit hashes differ get different file names |
| Sessions.FilenameTestKeys | src/session.rs:96-108 | the unit tests hold, given that the two 64-bit hashes differ: "slack:user1" and "slack_user1" get different names, and "test:key" gets the same name on every call, which holds by construction because the name is a function of the key alone |
| Sessions.SaveNamesOnLoad | src/session.rs:76-77 | the target is reloaded as a ".json" file; a left-over temporary file has extension "tmp" and is skipped |
| Sessions.LoadKeys | src/session.rs:32-47 | after loading, a key is present exactly when some .json file parses to a session with that key |
| Sessions.LoadKeepsLatest | src/session.rs:38-44 | the session kept for a key has the latest updated_at among its copies; on a tie, the first copy read is kept |
| Sessions.SkippedEntries | src/session.rs:34-36 | non-.json files and files that do not parse change nothing |
| Sessions.LoadEntries | src/session.rs:31-47 | the load loop gives exactly the fold of the merge over the directory |
| Sessions.DirOf | src/session.rs:32 | every listed entry is in the directory, and each name holds the contents of a listed entry |
| Sessions.SessionStore.constructor | src/session.rs:27-50 | the store starts with the loaded sessions and over the listed directory |
| Sessions.SessionStore.GetOrCreate | src/session.rs:52-62 | an existing key returns its session and changes nothing; an unseen key inserts and returns a session with that key, no messages and no summary |
| Sessions.SessionStore.SaveToDisk | src/session.rs:71-83 | the JSON goes to the .tmp file, then is renamed over the target. A write that fails before creating the file changes nothing, and a partial write leaves only the .tmp file. Whatever fails, the target holds either its old contents or the whole new JSON |
| Sessions.SessionStore.UpdateAndSave | src/session.rs:64-83 | the session replaces the key's entry and nothing else, before the save, so the update survives a failed save. The directory ends as the save leaves it for each outcome, and the target holds either its old contents or the whole new JSON |
| Context.CoreOrEmpty | src/context.rs:46-48 | a present, readable core file contributes its contents; a missing file, or a name the read validator refuses, contributes the empty string |
| Context.BuildSystemPrompt | src/context.rs:39-75 | the piecewise build gives exactly the system prompt |
| Context.AppendSkillLines | src/context.rs:63-71 | the loop appends one line per skill, in order |
| Context.SkillLinesInOrder | src/context.rs:63-71 | each skill's line comes after the lines of all skills before it |
| Context.SystemPromptShape | src/context.rs:46-72 | the prompt opens with identity, user and state joined by "\n\n---\n\n", then the divider and the tool hint; the "# Available Skills" section follows exactly when there are skills |
| Context.SystemPromptListsSkills | src/context.rs:62-72 | each skill's bullet line occurs in the prompt, after the header and after the lines of the skills before it |
| Context.MissingCoreFilesAreEmpty | src/context.rs:46-59 | with no core files the prompt is three dividers and the tool hint |
| Context.BuildMessages | src/context.rs:11-37 | the pushes give exactly the message list |
| Context.MessagesLayout | src/context.rs:17-36 | the system prompt comes first, then the summary message when there is one, then the history unchanged, then the user message; the length is 2 + history (+1 with a summary) |
| Context.MessagesRoles | src/context.rs:20-34 | the first message is a system message and the last is the user's text |
| Skills.FirstDescriptionIsFirst | src/skills.rs:42-46 | the description is "" exactly when no line is neither a heading nor blank; otherwise it is the first such line |
| Skills.DescriptionAfterHeading | src/skills.rs:42-46 | a heading and a blank line are skipped and the next line is the description |
| Skills.DescriptionOnlyHeadings | src/skills.rs:42-46 | a SKILL.md with only a heading and a blank line describes nothing |
| Skills.SkillPath | src/skills.rs:34-35 | the recorded path ends in SKILL.md |
| Skills.SkillPathUnderBase | src/skills.rs:34-35 | a skill with a relative name is recorded under the base directory |
| Skills.CollectExactly | src/skills.rs:31-54 | the loop fails exactly when some skill's SKILL.md cannot be read; otherwise it gathers every readable skill in directory order |
| Skills.CollectErrSticks | src/skills.rs:36 | once a read fails, later entries do not change the error |
| Skills.InsertByName | src/skills.rs:56 | inserting keeps the summaries sorted and adds exactly the new one |
| Skills.SortByName | src/skills.rs:56 | the sort gives a permutation of its input that is sorted by name |
| Skills.LoadSummaries | src/skills.rs:24-58 | the loop and the sort give exactly the specified load |
| Skills.LoadSummariesExactly | src/skills.rs:24-58 | the load succeeds exactly when no SKILL.md is unreadable, and then gives the readable skills' summaries sorted by name |
| Skills.ReadableSummaries | src/skills.rs:33-50 | each summary comes from a skill directory: its name, the description of its SKILL.md, and that file's path |
| Skills.ReadableIncludesSkills | src/skills.rs:33-50 | every directory holding a readable SKILL.md has its summary; entries without one are skipped |
| Skills.MissingDirectoryIsEmpty | src/skills.rs:27-29 | a missing skills directory gives no skills, and no error |
| ToolBase.ForLlm | src/tools/mod.rs:16-19 | the memory tools' answer has only the text for the model |
| ToolBase.ObjectSchema | src/tools/memory.rs:16-18 | a parameter schema is an object schema with the given properties |
| FileTool.RequestedPath | src/tools/file.rs:23-27 | an absolute path is used as given; a relative one is joined to the base directory |
| FileTool.ReadFile | src/tools/file.rs:19-57 | a missing or non-string path is a failure; every other request is answered in text; a resolved path inside the base is read, with a read failure answered as "Error reading ..." |
| FileTool.ReadTargetInsideBase | src/tools/file.rs:37-49 | whatever is read lies, component by component, under the resolved base directory |
| FileTool.OutsideNeverRead | src/tools/file.rs:29-49 | when resolution fails or the path is outside the base, the answer does not depend on any file's contents |
| FileTool.OutsideRefused | src/tools/file.rs:45-49 | a resolved path outside the resolved base gets "Error: path outside memory directory: " and the requested path |
| ImportTool.SourcePaths | src/tools/import.rs:52-62 | the sources are {home}/kondo-daily-ops/logs/YYYY/MM/DD.md and the directory .../DD |
| ImportTool.SourceContent | src/tools/import.rs:65-78 | DD.md is preferred; DD/README.md is the fallback; with neither there is nothing to import |
| ImportTool.Merged | src/tools/import.rs:87-95 | an existing log keeps its contents followed by the import divider and then exactly the imported text; a missing log becomes the imported text |
| ImportTool.Import | src/tools/import.rs:30-101 | an empty date or one not splitting into three parts is answered and nothing is written; every answer is text; only the daily log of that date can change |
| ImportTool.ImportWrites | src/tools/import.rs:65-100 | a found log is written to logs/daily/{date}.md, merged when it exists, with the byte-count message; a log not found writes nothing |
| ImportTool.FormatCheckCountsDashes | src/tools/import.rs:40-46 | the format check passes exactly when the date holds two dashes |
| ImportTool.TraversalDateAccepted | src/tools/import.rs:40-46 | the date is not checked as a date: a day part holding '/' passes, though the memory store's own date validator refuses it |
| ImportTool.ThreeParts | src/tools/import.rs:40 | three dash-free parts joined by dashes split back into the same three parts |
| ImportTool.ImportDailyOps | src/tools/import.rs:30-101 | the step-by-step execution gives exactly the import's answer and new directory |
| MemoryTools.SearchTextLines | src/tools/memory.rs:19-30 | no hits gives "No results found."; otherwise the hits are joined one per line and split back into the same hits |
| MemoryTools.SearchLogs | src/tools/memory.rs:19-30 | the query defaults to "" and the answer is the search's text |
| MemoryTools.ReadCoreMemory | src/tools/memory.rs:46-52 | the file defaults to state.md; a refused or missing file is a failure; otherwise the answer is its contents |
| MemoryTools.UpdateCoreMemory | src/tools/memory.rs:68-80 | identity.md is refused in the answer and nothing is written; a writable name gets the content (default "") and "Updated {file}"; another name refused by write_core fails with the validator's message and writes nothing |
| MemoryTools.UpdateThenRead | src/tools/memory.rs:68-80 | after a successful update the file reads back as the written content |
| MemoryTools.UpdateCore | src/tools/memory.rs:68-80 | the execution gives exactly the specified answer and new directory |
| MemoryTools.ReadDailyLog | src/tools/memory.rs:96-104 | a malformed date is a failure; an absent log is answered "No log for {date}"; a present one with its contents |
| MemoryTools.WriteSummary | src/tools/memory.rs:124-145 | an empty id or content is refused and nothing is written; the period defaults to weekly and picks the writer; any other period is refused and nothing is written |
| MemoryTools.WriteSummaryTool | src/tools/memory.rs:124-145 | the execution gives exactly the specified answer and new directory |
| MemoryTools.AppendNote | src/tools/memory.rs:161-166 | the directory becomes exactly the one `append_log` leaves: today's log keeps its old text (or gets the header) and gains "- text\n" (default ""), and nothing else changes; the answer is "Note appended." |
| MemoryTools.AppendNoteTool | src/tools/memory.rs:161-166 | the execution gives exactly the specified answer and new directory |
| Tools.Parameters | src/tools/memory.rs:16-18 | every tool's parameters form an object schema |
| Tools.BuiltinNamesDistinct | src/tools/memory.rs:10-12 | the eight built-in tools have pairwise different names |
| Tools.Def | src/tools/mod.rs:55-61 | a definition has type "function" and copies the tool's name, description and parameters |
| Tools.Arguments | src/tools/mod.rs:71-72 | arguments that do not parse become an empty object instead of a failure |
| Tools.ReadersDoNotWrite | src/tools/mod.rs:73 | search_logs, read_core_memory, read_daily_log and read_file leave the memory directory unchanged |
| Tools.MalformedArgumentsUseDefaults | src/tools/mod.rs:71-73 | with malformed arguments read_core_memory reads state.md and read_file fails for want of a path |
| Tools.ToolRegistry.constructor | src/tools/mod.rs:41-46 | a new registry is empty and holds the given context |
| Tools.ToolRegistry.Register | src/tools/mod.rs:48-50 | the tool is filed under its name, replacing any tool of that name; all other entries stay |
| Tools.ToolRegistry.ToolDefs | src/tools/mod.rs:52-64 | exactly one definition per registered tool, each that tool's definition, no name twice, in no particular order |
| Tools.ToolRegistry.Execute | src/tools/mod.rs:66-74 | an unregistered name fails with "Unknown tool: {name}" and changes nothing; otherwise the tool runs on the parsed arguments with the registry's own context |
| Tools.LastRegistrationWins | src/tools/mod.rs:48-50 | registering twice under one name is the same as registering the second tool alone |
| Mcp.OkResponse | src/mcp.rs:39-41 | a success response has jsonrpc "2.0", the id, the result and no error |
| Mcp.ErrResponse | src/mcp.rs:42-44 | an error response has jsonrpc "2.0", the id, the code and message, and no result |
| Mcp.InitializeResult | src/mcp.rs:72-76 | initialize answers protocol version 2024-11-05 and the server's name |
| Mcp.ToolsList | src/mcp.rs:88-99 | tools/list gives exactly four tools: read_core_memory, update_core_memory, search_logs and read_daily_log, in that order |
| Mcp.ToolText | src/mcp.rs:104-121 | only update_core_memory can change the memory directory |
| Mcp.ToolsCall | src/mcp.rs:101-123 | a missing name and an unknown tool give -32602. A tool's success is answered as `{content: [{type: "text", text}]}` with the tool's new memory directory, and its failure is passed on with nothing written |
| Mcp.Handle | src/mcp.rs:66-86 | every response has jsonrpc "2.0", echoes the id (Null when absent) and carries exactly one of result and error; a wrong version gives -32600 and an unknown method -32601; only tools/call writes |
| Mcp.OnlyUpdateWrites | src/mcp.rs:106-110 | a request that changes memory is a successful update_core_memory call, and it writes what write_core writes |
| Mcp.IdentityReadOnly | src/mcp.rs:108 | update_core_memory of identity.md gives -32000 and writes nothing |
| Mcp.CallsAgreeWithAgentTools | src/mcp.rs:104-122 | each endpoint tool gives the same success, text and new directory as the agent's tool of that name; a memory failure becomes -32000 with the same message |
| Mcp.McpServer.constructor | src/mcp.rs:53-54 | the endpoint serves the given memory store under the given name |
| Mcp.McpServer.HandleRpc | src/mcp.rs:66-86 | handling a request gives exactly the specified response and new memory directory |
| Mcp.McpServer.CallTool | src/mcp.rs:101-123 | the call gives exactly the specified result and new memory directory |
| Llm.ClassifyBuild | src/llm.rs:22-38 | the message constructors are injective and never overlap: a message tells which constructor made it and from what |
| Llm.ConstructorFields | src/llm.rs:22-38 | system, user and assistant set their role and Some(content); only assistant_with_tool_calls sets tool calls; only tool_result sets a tool-call id, with role "tool" |
| Llm.DecodeChat | src/llm.rs:133-153 | a send failure and a non-success status are errors; success needs a parsed body with at least one choice; the reply is the first choice's content, and its tool calls or [] |
| Llm.ErrorText | src/llm.rs:144 | an API error's text starts with "LLM API error (" |
| Llm.CreateClient | src/llm.rs:159-170 | the base URL is the configured one or OpenRouter's, with trailing '/' removed; the key, model and token limit are copied |
| Llm.DefaultClientUrl | src/llm.rs:160-161 | without a configured URL the client uses https://openrouter.ai/api/v1 |
| Llm.ChatUrl | src/llm.rs:125 | the chat URL is exactly the base URL followed by /chat/completions |
| LlmProviders.ConstructorRoles | src/llm/mod.rs:15-36 | the three constructors keep the content and differ only in the role |
| LlmProviders.DefaultBaseUrl | src/llm/mod.rs:73-84 | each of the seven listed providers gets its own URL; any other name gets https://api.openai.com/v1 |
| LlmProviders.OpenAiFallback | src/llm/mod.rs:73-84 | the OpenAI URL is chosen exactly for "openai" and for unlisted names |
| LlmProviders.CreateClient | src/llm/mod.rs:58-71 | "anthropic" selects the Anthropic client and every other name the OpenAI-compatible one, at the configured URL or the provider's default |
| LlmProviders.DefaultUrlUsed | src/llm/mod.rs:62-65 | without a configured URL, a non-Anthropic client uses the provider's default URL |
| LlmProviders.ConfiguredUrlOverrides | src/llm/mod.rs:62-65 | a configured URL overrides the provider default |
| Anthropic.NewClient | src/llm/anthropic.rs:91-104 | the base URL is the configured one or https://api.anthropic.com, with trailing '/' removed |
| Anthropic.MessagesUrl | src/llm/anthropic.rs:209 | the request goes to exactly the base URL followed by /v1/messages |
| Anthropic.ConvertTools | src/llm/anthropic.rs:106-115 | one definition per tool, in order, with the name, description and schema copied |
| Anthropic.ToolInput | src/llm/anthropic.rs:150-152 | tool-call arguments that do not parse become an empty object |
| Anthropic.ToolUses | src/llm/anthropic.rs:148-159 | one tool_use block per tool call, in order, with its id, name and input |
| Anthropic.AssistantBlocks | src/llm/anthropic.rs:141-164 | an assistant turn is never empty and holds no tool_result. It is the non-empty text followed by one tool_use per tool call, in order, or a single empty text block when there is neither |
| Anthropic.PushToolUses | src/llm/anthropic.rs:149-158 | the loop appends one tool_use block per tool call, in order, with the call's id and name and its arguments parsed (an empty object when they do not parse), and keeps the blocks before it |
| Anthropic.AssistantTurnBlocks | src/llm/anthropic.rs:142-164 | the loop over the tool calls gives exactly the assistant turn's blocks |
| Anthropic.ConvertMessages | src/llm/anthropic.rs:117-199 | the loop gives exactly the fold of the conversion step over the history |
| Anthropic.SystemHoisted | src/llm/anthropic.rs:123-132 | the system field is every system text joined by "\n\n", in order, or None when there is none |
| Anthropic.OnlyUserAndAssistantTurns | src/llm/anthropic.rs:117-199 | system messages never reach the turn list; every turn is user or assistant |
| Anthropic.BlocksNeverEmpty | src/llm/anthropic.rs:160-164 | no turn has an empty block list |
| Anthropic.ToolResultsMerged | src/llm/anthropic.rs:175-192 | no two neighbouring turns consist only of tool results: consecutive results share one user turn |
| Anthropic.ToolResultIdsPreserved | src/llm/anthropic.rs:170-193 | the tool_result ids of the output are exactly the ids of the history's tool messages, in order |
| Anthropic.UserAndUnknownRoles | src/llm/anthropic.rs:133-194 | a user message becomes a plain-text user turn ("" when it has no content); a message with an unknown role is dropped |
| Anthropic.LastTextIsLast | src/llm/anthropic.rs:245-247 | the reply's content is the text of its last text block, and None exactly when it has none |
| Anthropic.CallsOf | src/llm/anthropic.rs:248-257 | tool calls come from tool_use blocks only, each of type "function"; in a reply of only tool_use blocks they keep order, ids and names |
| Anthropic.CallFor | src/llm/anthropic.rs:249-256 | a tool_use block becomes a "function" call with its id and name, and its input serialized as the arguments |
| Anthropic.CallsOfExactly | src/llm/anthropic.rs:242-257 | for any mix of text and tool_use blocks there is one call per tool_use block, and the k-th tool_use block gives the k-th call |
| Anthropic.DecodeBlocks | src/llm/anthropic.rs:242-261 | the decode loop gives the last text and the tool calls in order |
| Anthropic.CheckReply | src/llm/anthropic.rs:231-240 | a send failure and a non-success status are errors; otherwise the parsed content blocks |
| Config.DefaultApi | src/config.rs:41-49 | the API binds 127.0.0.1:3000 by default |
| Config.DefaultMcp | src/config.rs:59-67 | the MCP endpoint is off by default and binds 127.0.0.1:3001 |
| Config.DefaultBaseDir | src/config.rs:81-83 | the base directory is .1koro under the home directory, or ./.1koro without one |
| Config.DefaultMemory | src/config.rs:75-79 | the memory configuration defaults to the default base directory |
| Config.ExpandTilde | src/config.rs:108-113 | "~/rest" becomes rest under the home directory when there is one; any other path is unchanged |
| Config.ExpandTildeLeaves | src/config.rs:109-112 | "~" alone, "~user" paths and every path without a home directory stay as they are |
| Config.ExpandTildeHome | src/config.rs:109-110 | with a home directory, "~/x" is x under it |
| Config.WriteIfMissing | src/config.rs:97-100 | an existing file keeps its contents; a missing one gets the template |
| Config.WriteAllMissingKeeps | src/config.rs:101-104 | a first run never overwrites a file, and afterwards every template's file exists |
| Config.WriteAllMissingOnly | src/config.rs:101-104 | no file appears other than the templates' |
| Config.WriteAllMissingFills | src/config.rs:101-104 | a template's missing file gets that template |
| Config.WriteAllMissingIdempotent | src/config.rs:92-106 | running the first-run setup again changes nothing |
| Config.DirChainMembers | src/config.rs:95 | `create_dir_all(p)` leaves p in place along with exactly those prefixes of p that end just before a '/' |
| Config.DirsUnderExactly | src/config.rs:94-96 | the directories created are exactly the six listed ones and their ancestors |
| Config.FirstRunDirs | src/config.rs:94-96 | under a base without a trailing '/', the first run leaves the base, base/logs and the six listed directories in place |
| Config.ParentsCreated | src/config.rs:95 | creating logs/daily also creates the base and base/logs |
| Config.ListedCreated | src/config.rs:95 | each relative entry ends up as a directory directly under the base |
| Config.Disk.constructor | src/config.rs:92-93 | the disk starts with the given files and directories |
| Config.Disk.InitConfigDir | src/config.rs:92-106 | the six directories and their ancestors are added, then each template is written where no file exists |
| Config.Disk.CreateDirs | src/config.rs:94-96 | the loop adds exactly the listed directories and their ancestors, and no file |
| Config.Disk.WriteTemplates | src/config.rs:97-104 | the writes give exactly the write-if-missing of every template, in order |
| Json.StrArg | src/tools/memory.rs:144 | `args[key].as_str().unwrap_or(default)`: the string member, or the default when it is absent or not a string |
| Text.ToLower | src/memory.rs:143-149 | lower-casing keeps the length and maps each character |
| Text.LinesHaveNoNewline | src/memory.rs:148 | no line given by `lines()` contains a line feed |
| Text.SplitCount | src/tools/import.rs:40 | `split('-')` gives one part more than the string has dashes |
| Text.JoinSplit | src/tools/memory.rs:27 | hits joined with "\n" split back into the same hits when none holds a line feed |
| Text.TrimEnd | src/llm.rs:165 | `trim_end_matches('/')` removes every trailing '/' and nothing else |
| Text.SortedSet | src/memory.rs:139-142 | a listing sorted by file name holds each entry once, in strictly increasing order |
| Text.StemAndExtension | src/memory.rs:146-150 | for "stem.ext" the extension is ext and the file stem is stem |
| Text.PathJoin | src/memory.rs:95 | joining an absolute path replaces the base; the joined path ends with what was joined |
| Text.PathJoinKeepsBase | src/memory.rs:95 | a relative path joined to a non-empty base starts with that base |

## Left out

- The HTTP exchanges of both chat clients are not modelled (sending, headers, bearer and x-api-key authentication). The reply enters as a status and a body, or as no reply at all.
- `src/llm/openai_compatible.rs`, `src/llm/minimax.rs` and `src/tools/shell.rs` are not part of this model. The first two are network clients; the shell tool spawns a foreign process. The tool registry therefore has the eight tools of `src/tools/memory.rs`, `src/tools/file.rs` and `src/tools/import.rs`.
- Concurrency is not modelled: the message bus, the channels, the `Mutex` around the agent, and the `Mutex` around the sessions map. The session store is plain sequential state.
- The following I/O adapters and entry points are not modelled: `src/api.rs`, `src/main.rs`, `src/channels/*`, `mcp::start` (binding a socket), and `config::load` (reading and parsing TOML). `src/agent.rs` and `src/scheduler.rs` are stubs with nothing to model.
- File-system failures are modelled only in three places. A failed session save is returned as an error, with the directory as the failed call leaves it. A skills directory that cannot be listed, and a SKILL.md that cannot be read, are returned as errors. read_file answers a failed path resolution or read in its text. Everywhere else failures are not modelled. A file present in the memory map always reads and `create_dir_all` always succeeds. When the session store is built, creating and listing the sessions directory and reading each .json entry always succeed, although the source gives up with an error on any of them. Directories of the memory store are implied by the paths in the map.
- MemoryLogs.AppendLog: the source overwrites the log when reading it fails, `unwrap_or_default` treating the failure as an empty log. That path is not modelled, because reads do not fail in the model.
- Paths are not normalised: "a/../b" is a different key from "b". Only the validated revision's ids are proved free of '/' and '.'.
- `serde_json` parsing and serialization are parameters. JSON numbers are integers.
- The 64-bit `DefaultHasher` is a parameter, so collision freedom is not assumed. Sessions.FilenamesDistinct takes different 64-bit hashes as its premise.
- `Path::canonicalize` and reads outside the memory directory are parameters, not tied to the memory map.
- Text.ToLower: lower-cases ASCII letters only, whereas `str::to_lowercase` folds all of Unicode. The search is therefore modelled as case-insensitive for ASCII.
- Llm.ErrorText: renders the status as its number only; reqwest's status display also appends the reason phrase ("404 Not Found"). The contract states only the prefix.
- Config.DefaultBaseDir: the contract pins down the result only for a home directory without a trailing '/' and for no home directory. Other cases follow `PathJoin`.
- Mcp.CallsAgreeWithAgentTools: covers the four endpoint tools except update_core_memory of identity.md, which the endpoint fails with -32000 while the agent's tool answers it in text (Mcp.IdentityReadOnly states the endpoint's side).
- `ToolResult` exists in two revisions: with `for_user` in `src/tools/mod.rs`, and without it in `src/tools/memory.rs`. The model uses the first, and the memory tools leave `for_user` empty.
- `config.provider` is read by `src/llm/mod.rs` but is missing from `LlmConfig` in `src/config.rs`. The provider is a plain parameter of LlmProviders.CreateClient.
- Requests without an id (JSON-RPC notifications) are answered with id Null, as the source does. Section 4.1 of the JSON-RPC 2.0 Specification says they get no response; the model follows the code.
- The import tool's `home.unwrap_or_default()` is modelled as an empty home path joined like any other.
- Timestamps are integers ordered as `DateTime<Local>` values are. The clock is the `now` parameter of get_or_create.
