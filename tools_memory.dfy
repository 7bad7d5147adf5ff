/**
 * The memory tools (src/tools/memory.rs): each reads its string arguments with
 * a default, calls the memory store, and answers in text. Refusals the tool
 * itself makes are answers ("Error: ..."); errors of the store are failures.
 *
 * Each tool is specified by a function of the store's files and the
 * arguments; the ones that change the store also give the new files.
 */
module MemoryTools {
  import opened Wrappers
  import opened Text
  import opened Json
  import opened Store
  import Memory
  import opened ToolBase

  /** The store after a tool ran, and the tool's result. */
  datatype Outcome = Outcome(files: Files, result: Result<ToolResult, string>)

  // ------------------------------------------------------------ search_logs

  const NoResults: string := "No results found."

  /** The answer of search_logs for its hits. */
  function SearchText(hits: seq<string>): string {
    if hits == [] then NoResults else Join(hits, "\n")
  }

  /** No hits gives the fixed answer; otherwise the hits are one per line and can be split apart again. */
  lemma SearchTextLines(hits: seq<string>)
    requires forall k :: 0 <= k < |hits| ==> '\n' !in hits[k]
    ensures hits == [] ==> SearchText(hits) == NoResults
    ensures hits != [] ==> Split(SearchText(hits), '\n') == hits
  {
    if hits != [] {
      JoinSplit(hits, '\n');
    }
  }

  function SearchLogsSpec(files: Files, args: Json): Result<ToolResult, string> {
    Ok(ForLlm(SearchText(SearchHits(files, StrArg(args, "query", "")))))
  }

  method SearchLogs(args: Json, ctx: ToolContext) returns (r: Result<ToolResult, string>)
    ensures r == SearchLogsSpec(ctx.memory.files, args)
  {
    var results := ctx.memory.SearchLogs(StrArg(args, "query", ""));
    r := Ok(ForLlm(if results == [] then NoResults else Join(results, "\n")));
  }

  // ------------------------------------------------------------ read_core_memory

  /** read_core_memory: the file defaults to state.md; a refused or missing file is a failure. */
  function ReadCoreMemory(files: Files, args: Json): (r: Result<ToolResult, string>)
    ensures var file := StrArg(args, "file", "state.md");
      && (r.Ok? <==> Memory.ValidateCoreRead(file).Ok? && CorePath(file) in files)
      && (r.Ok? ==> r.value == ForLlm(files[CorePath(file)]))
    ensures !Get(args, "file").Str? ==> (r.Ok? <==> CorePath("state.md") in files)
  {
    match Memory.ReadCore(files, StrArg(args, "file", "state.md"))
    case Ok(s) => Ok(ForLlm(s))
    case Err(e) => Err(e.message)
  }

  // ------------------------------------------------------------ update_core_memory

  const ReadOnlyIdentity: string := "Error: identity.md is read-only"

  /**
   * update_core_memory: identity.md is refused in the answer and nothing is
   * written; any other name goes to write_core, whose refusal is a failure.
   */
  function UpdateCoreMemory(files: Files, args: Json): (r: Outcome)
    ensures var file := StrArg(args, "file", "state.md");
      file == "identity.md" ==> r == Outcome(files, Ok(ForLlm(ReadOnlyIdentity)))
    ensures var file := StrArg(args, "file", "state.md");
      Memory.ValidateCoreWrite(file).Ok? ==>
        && r.files == files[CorePath(file) := StrArg(args, "content", "")]
        && r.result == Ok(ForLlm("Updated " + file))
    ensures var file := StrArg(args, "file", "state.md");
      file != "identity.md" && Memory.ValidateCoreWrite(file).Err? ==>
        r == Outcome(files, Err(Memory.ValidateCoreWrite(file).error.message))
    ensures r.result.Err? ==> r.files == files
    ensures r.files != files ==> r.result.Ok? && r.result.value.forLlm != ReadOnlyIdentity
  {
    var file := StrArg(args, "file", "state.md");
    if file == "identity.md" then Outcome(files, Ok(ForLlm(ReadOnlyIdentity)))
    else
      match Memory.WriteCoreTo(files, file, StrArg(args, "content", ""))
      case Err(e) => Outcome(files, Err(e.message))
      case Ok(f) =>
        assert ("Updated " + file)[..8] == "Updated ";
        Outcome(f, Ok(ForLlm("Updated " + file)))
  }

  /** After a successful update the file reads back as the written content. */
  lemma UpdateThenRead(files: Files, args: Json)
    requires UpdateCoreMemory(files, args).result.Ok?
    requires StrArg(args, "file", "state.md") != "identity.md"
    ensures var file := StrArg(args, "file", "state.md");
      Memory.ReadCore(UpdateCoreMemory(files, args).files, file) == Ok(StrArg(args, "content", ""))
  {
    var file := StrArg(args, "file", "state.md");
    Memory.CoreAllowLists(file);
  }

  method UpdateCore(args: Json, ctx: ToolContext) returns (r: Result<ToolResult, string>)
    modifies ctx.memory
    ensures Outcome(ctx.memory.files, r) == UpdateCoreMemory(old(ctx.memory.files), args)
  {
    var file := StrArg(args, "file", "state.md");
    if file == "identity.md" {
      return Ok(ForLlm(ReadOnlyIdentity));
    }
    var w := ctx.memory.WriteCore(file, StrArg(args, "content", ""));
    if w.Err? {
      return Err(w.error.message);
    }
    r := Ok(ForLlm("Updated " + file));
  }

  // ------------------------------------------------------------ read_daily_log

  /** read_daily_log: the log, or "No log for {date}"; a malformed date is a failure. */
  function ReadDailyLog(files: Files, args: Json): (r: Result<ToolResult, string>)
    ensures var date := StrArg(args, "date", "");
      && (r.Err? <==> Memory.ValidateDate(date).Err?)
      && (r.Err? ==> r.error == Memory.ValidateDate(date).error.message)
      && (r.Ok? && DailyPath(date) in files ==> r.value == ForLlm(files[DailyPath(date)]))
      && (r.Ok? && DailyPath(date) !in files ==> r.value == ForLlm("No log for " + date))
  {
    var date := StrArg(args, "date", "");
    match Memory.ReadDailyLog(files, date)
    case Err(e) => Err(e.message)
    case Ok(found) => Ok(ForLlm(found.GetOr("No log for " + date)))
  }

  // ------------------------------------------------------------ write_summary

  const IdAndContentRequired: string := "Error: id and content required"

  /**
   * write_summary: an empty id or content is refused in the answer; the period
   * (default "weekly") picks the writer; any other period is refused too.
   */
  function WriteSummary(files: Files, args: Json): (r: Outcome)
    ensures var period, id, content := StrArg(args, "period", "weekly"), StrArg(args, "id", ""), StrArg(args, "content", "");
      && (id == "" || content == "" ==> r == Outcome(files, Ok(ForLlm(IdAndContentRequired))))
      && (id != "" && content != "" && period != "weekly" && period != "monthly" ==>
            r == Outcome(files, Ok(ForLlm("Unknown period: " + period))))
      && (id != "" && content != "" && period == "weekly" ==>
            if Memory.ValidateWeekId(id).Ok?
            then r == Outcome(files[WeeklyPath(id) := content], Ok(ForLlm("Written " + period + " summary: " + id)))
            else r == Outcome(files, Err(Memory.ValidateWeekId(id).error.message)))
      && (id != "" && content != "" && period == "monthly" ==>
            if Memory.ValidateMonthId(id).Ok?
            then r == Outcome(files[MonthlyPath(id) := content], Ok(ForLlm("Written " + period + " summary: " + id)))
            else r == Outcome(files, Err(Memory.ValidateMonthId(id).error.message)))
  {
    var period, id, content := StrArg(args, "period", "weekly"), StrArg(args, "id", ""), StrArg(args, "content", "");
    if id == "" || content == "" then Outcome(files, Ok(ForLlm(IdAndContentRequired)))
    else
      var written: Option<Result<Files, Memory.MemError>> :=
        if period == "weekly" then Some(Memory.WriteWeeklyTo(files, id, content))
        else if period == "monthly" then Some(Memory.WriteMonthlyTo(files, id, content))
        else None;
      match written
      case None => Outcome(files, Ok(ForLlm("Unknown period: " + period)))
      case Some(Err(e)) => Outcome(files, Err(e.message))
      case Some(Ok(f)) => Outcome(f, Ok(ForLlm("Written " + period + " summary: " + id)))
  }

  method WriteSummaryTool(args: Json, ctx: ToolContext) returns (r: Result<ToolResult, string>)
    modifies ctx.memory
    ensures Outcome(ctx.memory.files, r) == WriteSummary(old(ctx.memory.files), args)
  {
    var period := StrArg(args, "period", "weekly");
    var id := StrArg(args, "id", "");
    var content := StrArg(args, "content", "");
    if id == "" || content == "" {
      return Ok(ForLlm(IdAndContentRequired));
    }
    var w: Result<(), Memory.MemError>;
    if period == "weekly" {
      w := ctx.memory.WriteWeeklySummary(id, content);
    } else if period == "monthly" {
      w := ctx.memory.WriteMonthlySummary(id, content);
    } else {
      return Ok(ForLlm("Unknown period: " + period));
    }
    if w.Err? {
      return Err(w.error.message);
    }
    r := Ok(ForLlm("Written " + period + " summary: " + id));
  }

  // ------------------------------------------------------------ append_note

  /** append_note: the text (default "") goes to today's log; the answer is fixed. */
  function AppendNote(files: Files, args: Json, today: string): (r: Outcome)
    ensures r.result == Ok(ForLlm("Note appended."))
    ensures r.files.Keys == files.Keys + {DailyPath(today)}
    ensures forall p :: p in files && p != DailyPath(today) ==> r.files[p] == files[p]
    ensures IsSuffix("- " + StrArg(args, "text", "") + "\n", r.files[DailyPath(today)])
    ensures r.files == AppendLogTo(files, today, StrArg(args, "text", ""))
  {
    var entry := StrArg(args, "text", "");
    var f := AppendLogTo(files, today, entry);
    Outcome(f, Ok(ForLlm("Note appended.")))
  }

  method AppendNoteTool(args: Json, ctx: ToolContext) returns (r: Result<ToolResult, string>)
    modifies ctx.memory
    ensures Outcome(ctx.memory.files, r) == AppendNote(old(ctx.memory.files), args, ctx.today)
  {
    ctx.memory.AppendLog(ctx.today, StrArg(args, "text", ""));
    r := Ok(ForLlm("Note appended."));
  }
}
