/**
 * The tool registry (src/tools/mod.rs): tools keyed by name, the last
 * registration of a name winning; the definitions handed to the model; and
 * execution of a tool by name with JSON arguments, against the registry's
 * own context.
 *
 * A tool is a record of its name, description and parameter schema and the
 * behaviour it runs; the built-in tools are the eight of src/tools/memory.rs,
 * src/tools/file.rs and src/tools/import.rs.
 */
module Tools {
  import opened Wrappers
  import opened Json
  import opened Store
  import Llm
  import opened ToolBase
  import opened MemoryTools
  import FileTool
  import ImportTool

  /** Which execute a tool runs. */
  datatype Behaviour =
    | SearchLogsBehaviour
    | ReadCoreMemoryBehaviour
    | UpdateCoreMemoryBehaviour
    | ReadDailyLogBehaviour
    | WriteSummaryBehaviour
    | AppendNoteBehaviour
    | ReadFileBehaviour
    | ImportDailyOpsBehaviour

  datatype Tool = Tool(name: string, description: string, parameters: Json, behaviour: Behaviour)

  function DescribedStr(description: string): Json {
    Object(map["type" := Str("string"), "description" := Str(description)])
  }

  function Name(b: Behaviour): string {
    match b
    case SearchLogsBehaviour => "search_logs"
    case ReadCoreMemoryBehaviour => "read_core_memory"
    case UpdateCoreMemoryBehaviour => "update_core_memory"
    case ReadDailyLogBehaviour => "read_daily_log"
    case WriteSummaryBehaviour => "write_summary"
    case AppendNoteBehaviour => "append_note"
    case ReadFileBehaviour => "read_file"
    case ImportDailyOpsBehaviour => "import_dailyops"
  }

  function Description(b: Behaviour): string {
    match b
    case SearchLogsBehaviour => "Search past conversation logs and daily notes for a keyword"
    case ReadCoreMemoryBehaviour => "Read a core memory file (identity.md, user.md, or state.md)"
    case UpdateCoreMemoryBehaviour => "Update user.md or state.md with new content"
    case ReadDailyLogBehaviour => "Read a daily log by date (YYYY-MM-DD)"
    case WriteSummaryBehaviour =>
      "Write a weekly or monthly summary. period='weekly' id='2026-W08', or period='monthly' id='2026-02'"
    case AppendNoteBehaviour => "Append a note to today's daily log"
    case ReadFileBehaviour => "Read file contents within the memory directory (~/.1koro)"
    case ImportDailyOpsBehaviour =>
      "Import a log file from ~/kondo-daily-ops/logs/ into 1koro's daily logs. Provide the date (YYYY-MM-DD) or a relative path."
  }

  /** Each tool's parameters: an object schema of string properties, all of them required. */
  function Parameters(b: Behaviour): (r: Json)
    ensures Get(r, "type") == Str("object")
  {
    match b
    case SearchLogsBehaviour => ObjectSchema(map["query" := StrSchema()], ["query"])
    case ReadCoreMemoryBehaviour =>
      ObjectSchema(map["file" := EnumSchema(["identity.md", "user.md", "state.md"])], ["file"])
    case UpdateCoreMemoryBehaviour =>
      ObjectSchema(map["file" := EnumSchema(["user.md", "state.md"]), "content" := StrSchema()], ["file", "content"])
    case ReadDailyLogBehaviour => ObjectSchema(map["date" := StrSchema()], ["date"])
    case WriteSummaryBehaviour =>
      ObjectSchema(map[
        "period" := EnumSchema(["weekly", "monthly"]),
        "id" := DescribedStr("e.g. '2026-W08' or '2026-02'"),
        "content" := StrSchema()], ["period", "id", "content"])
    case AppendNoteBehaviour => ObjectSchema(map["text" := StrSchema()], ["text"])
    case ReadFileBehaviour =>
      ObjectSchema(map["path" := DescribedStr("File path relative to memory directory (~/.1koro)")], ["path"])
    case ImportDailyOpsBehaviour =>
      ObjectSchema(map["date" := DescribedStr("Date in YYYY-MM-DD format to import")], ["date"])
  }

  /** The built-in tool for each behaviour. */
  function Builtin(b: Behaviour): Tool {
    Tool(Name(b), Description(b), Parameters(b), b)
  }

  /** The built-in tools have pairwise different names, so registering all of them keeps all of them. */
  lemma BuiltinNamesDistinct(a: Behaviour, b: Behaviour)
    requires a != b
    ensures Builtin(a).name != Builtin(b).name
  {
    assert |Name(a)| != |Name(b)| || Name(a)[0] != Name(b)[0];
  }

  /** The definition the model sees for a tool. */
  function Def(t: Tool): (d: Llm.ToolDef)
    ensures d.kind == "function"
    ensures d.def.name == t.name && d.def.description == t.description && d.def.parameters == t.parameters
  {
    Llm.ToolDef("function", Llm.FunctionDef(t.name, t.description, t.parameters))
  }

  /** `serde_json::from_str(args_json).unwrap_or(empty object)`. */
  function Arguments(argsJson: string, parse: string -> Option<Json>): (r: Json)
    ensures parse(argsJson).Some? ==> r == parse(argsJson).value
    ensures parse(argsJson).None? ==> r == EmptyObject
  {
    parse(argsJson).GetOr(EmptyObject)
  }

  /** What running a tool does to the memory directory and what it answers. */
  function Run(b: Behaviour, args: Json, files: Files, ctx: ToolContext): Outcome {
    match b
    case SearchLogsBehaviour => Outcome(files, SearchLogsSpec(files, args))
    case ReadCoreMemoryBehaviour => Outcome(files, ReadCoreMemory(files, args))
    case UpdateCoreMemoryBehaviour => UpdateCoreMemory(files, args)
    case ReadDailyLogBehaviour => Outcome(files, ReadDailyLog(files, args))
    case WriteSummaryBehaviour => WriteSummary(files, args)
    case AppendNoteBehaviour => AppendNote(files, args, ctx.today)
    case ReadFileBehaviour => Outcome(files, FileTool.ReadFile(args, ctx.baseDir, ctx.canonicalize, ctx.readFile))
    case ImportDailyOpsBehaviour => ImportTool.Import(files, args, ctx.home, ctx.external)
  }

  /** The reading tools leave the memory directory as it was. */
  lemma ReadersDoNotWrite(b: Behaviour, args: Json, files: Files, ctx: ToolContext)
    requires b in {SearchLogsBehaviour, ReadCoreMemoryBehaviour, ReadDailyLogBehaviour, ReadFileBehaviour}
    ensures Run(b, args, files, ctx).files == files
  {
  }

  /**
   * With malformed arguments every tool runs on an empty object, so each
   * argument takes its default: read_core_memory reads state.md and
   * read_file fails for want of a path.
   */
  lemma MalformedArgumentsUseDefaults(argsJson: string, parse: string -> Option<Json>, files: Files, ctx: ToolContext)
    requires parse(argsJson).None?
    ensures var args := Arguments(argsJson, parse);
      && Run(ReadCoreMemoryBehaviour, args, files, ctx).result == ReadCoreMemory(files, Object(map[]))
      && (CorePath("state.md") in files ==>
            Run(ReadCoreMemoryBehaviour, args, files, ctx).result == Ok(ForLlm(files[CorePath("state.md")])))
      && Run(ReadFileBehaviour, args, files, ctx).result == Err(FileTool.MissingPath)
  {
    assert Get(EmptyObject, "file") == Null;
    assert Get(EmptyObject, "path") == Null;
  }

  /** `defs` lists the definitions of the tools named in `done`, each once and nothing else. */
  ghost predicate Covers(tools: map<string, Tool>, defs: seq<Llm.ToolDef>, done: set<string>) {
    && done <= tools.Keys
    && OnlyDone(tools, defs, done)
    && (forall n :: n in done ==> Listed(defs, tools[n]))
  }

  /** Each definition is that of a tool named in `done`, and no name comes twice. */
  predicate OnlyDone(tools: map<string, Tool>, defs: seq<Llm.ToolDef>, done: set<string>)
    requires done <= tools.Keys
  {
    && (forall i :: 0 <= i < |defs| ==> defs[i].def.name in done && defs[i] == Def(tools[defs[i].def.name]))
    && (forall i, j :: 0 <= i < j < |defs| ==> defs[i].def.name != defs[j].def.name)
  }

  ghost predicate Listed(defs: seq<Llm.ToolDef>, t: Tool) {
    exists i :: 0 <= i < |defs| && defs[i] == Def(t)
  }

  lemma ListedKept(defs: seq<Llm.ToolDef>, d: Llm.ToolDef, t: Tool)
    requires Listed(defs, t)
    ensures Listed(defs + [d], t)
  {
    var i :| 0 <= i < |defs| && defs[i] == Def(t);
    assert (defs + [d])[i] == defs[i];
  }

  lemma OnlyDoneStep(tools: map<string, Tool>, defs: seq<Llm.ToolDef>, done: set<string>, n: string)
    requires done <= tools.Keys && OnlyDone(tools, defs, done) && n in tools && n !in done && tools[n].name == n
    ensures OnlyDone(tools, defs + [Def(tools[n])], done + {n})
  {
    var next := defs + [Def(tools[n])];
    assert forall i :: 0 <= i < |defs| ==> next[i] == defs[i];
  }

  /** Listing one more tool, filed under its own name, keeps the listing exact. */
  lemma CoversStep(tools: map<string, Tool>, defs: seq<Llm.ToolDef>, done: set<string>, n: string)
    requires Covers(tools, defs, done) && n in tools && n !in done && tools[n].name == n
    ensures Covers(tools, defs + [Def(tools[n])], done + {n})
  {
    var d := Def(tools[n]);
    OnlyDoneStep(tools, defs, done, n);
    forall m | m in done + {n} ensures Listed(defs + [d], tools[m]) {
      if m == n {
        assert (defs + [d])[|defs|] == d;
      } else {
        ListedKept(defs, d, tools[m]);
      }
    }
  }

  class ToolRegistry {
    var tools: map<string, Tool>
    const ctx: ToolContext

    /** Every tool is filed under its own name. */
    ghost predicate Valid()
      reads this
    {
      forall n :: n in tools ==> tools[n].name == n
    }

    constructor (ctx: ToolContext)
      ensures Valid()
      ensures tools == map[] && this.ctx == ctx
    {
      this.tools := map[];
      this.ctx := ctx;
    }

    /** The tool replaces any tool of the same name; every other entry stays. */
    method Register(tool: Tool)
      requires Valid()
      modifies this
      ensures Valid()
      ensures tools == old(tools)[tool.name := tool]
    {
      tools := tools[tool.name := tool];
    }

    /** One definition per registered tool, in no particular order. */
    method ToolDefs() returns (defs: seq<Llm.ToolDef>)
      requires Valid()
      ensures |defs| == |tools.Keys|
      ensures forall i :: 0 <= i < |defs| ==> defs[i].def.name in tools && defs[i] == Def(tools[defs[i].def.name])
      ensures forall n :: n in tools ==> exists i :: 0 <= i < |defs| && defs[i] == Def(tools[n])
      ensures forall i, j :: 0 <= i < j < |defs| ==> defs[i].def.name != defs[j].def.name
    {
      defs := [];
      var remaining := tools.Keys;
      while remaining != {}
        invariant remaining <= tools.Keys
        invariant |defs| + |remaining| == |tools.Keys|
        invariant Covers(tools, defs, tools.Keys - remaining)
        decreases |remaining|
      {
        var n :| n in remaining;
        var t := tools[n];
        CoversStep(tools, defs, tools.Keys - remaining, n);
        defs := defs + [Llm.ToolDef("function", Llm.FunctionDef(t.name, t.description, t.parameters))];
        assert tools.Keys - (remaining - {n}) == (tools.Keys - remaining) + {n};
        assert |remaining - {n}| == |remaining| - 1;
        remaining := remaining - {n};
      }
    }

    /**
     * An unregistered name fails; otherwise the tool filed under the name
     * runs on the parsed arguments (an empty object when they do not
     * parse) with the registry's context.
     */
    method Execute(name: string, argsJson: string, parse: string -> Option<Json>) returns (r: Result<ToolResult, string>)
      modifies ctx.memory
      ensures name !in tools ==> r == Err("Unknown tool: " + name) && ctx.memory.files == old(ctx.memory.files)
      ensures name in tools ==>
        Outcome(ctx.memory.files, r) == Run(tools[name].behaviour, Arguments(argsJson, parse), old(ctx.memory.files), ctx)
    {
      if name !in tools {
        return Err("Unknown tool: " + name);
      }
      var tool := tools[name];
      var args := parse(argsJson).GetOr(EmptyObject);
      match tool.behaviour
      case SearchLogsBehaviour => r := SearchLogs(args, ctx);
      case ReadCoreMemoryBehaviour => r := ReadCoreMemory(ctx.memory.files, args);
      case UpdateCoreMemoryBehaviour => r := UpdateCore(args, ctx);
      case ReadDailyLogBehaviour => r := ReadDailyLog(ctx.memory.files, args);
      case WriteSummaryBehaviour => r := WriteSummaryTool(args, ctx);
      case AppendNoteBehaviour => r := AppendNoteTool(args, ctx);
      case ReadFileBehaviour => r := FileTool.ReadFile(args, ctx.baseDir, ctx.canonicalize, ctx.readFile);
      case ImportDailyOpsBehaviour => r := ImportTool.ImportDailyOps(args, ctx);
    }
  }

  /** Registering a second tool under a taken name replaces the first; the other entries stay. */
  lemma LastRegistrationWins(tools: map<string, Tool>, first: Tool, second: Tool)
    requires first.name == second.name
    ensures tools[first.name := first][second.name := second] == tools[second.name := second]
  {
  }
}
