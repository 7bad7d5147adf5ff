/**
 * The import_dailyops tool (src/tools/import.rs): a day's log is looked up in
 * the kondo-daily-ops tree under the home directory, first as `DD.md`, then as
 * `DD/README.md`, and copied into the daily log of the memory directory,
 * appended behind a divider when that log already exists.
 *
 * The kondo-daily-ops tree is `external`, the readable files outside the
 * memory directory by path; the home directory is a parameter.
 */
module ImportTool {
  import opened Wrappers
  import opened Text
  import opened Json
  import opened Store
  import Memory
  import opened ToolBase
  import opened MemoryTools

  const DateRequired: string := "Error: date is required"
  const DateFormat: string := "Error: date must be YYYY-MM-DD format"
  const LogsRoot: string := "kondo-daily-ops/logs"
  const ImportDivider: string := "\n\n---\n## Imported from kondo-daily-ops\n\n"

  /** Where a day's log may be: the file `YYYY/MM/DD.md` and the directory `YYYY/MM/DD`. */
  datatype Sources = Sources(file: string, dir: string)

  function SourcePaths(home: string, year: string, month: string, day: string): (r: Sources)
    ensures var monthDir := PathJoin(PathJoin(PathJoin(home, LogsRoot), year), month);
      r.file == PathJoin(monthDir, day + ".md") && r.dir == PathJoin(monthDir, day)
  {
    var monthDir := PathJoin(PathJoin(PathJoin(home, LogsRoot), year), month);
    Sources(PathJoin(monthDir, day + ".md"), PathJoin(monthDir, day))
  }

  /** The file is preferred; the directory's README.md is the fallback. */
  function SourceContent(external: map<string, string>, src: Sources): (r: Option<string>)
    ensures src.file in external ==> r == Some(external[src.file])
    ensures src.file !in external && PathJoin(src.dir, "README.md") in external ==>
      r == Some(external[PathJoin(src.dir, "README.md")])
    ensures r.None? <==> src.file !in external && PathJoin(src.dir, "README.md") !in external
  {
    if src.file in external then Some(external[src.file])
    else if PathJoin(src.dir, "README.md") in external then Some(external[PathJoin(src.dir, "README.md")])
    else None
  }

  /** The imported text appended behind the divider when the log exists, otherwise the whole log. */
  function Merged(files: Files, target: string, content: string): (r: string)
    ensures target in files ==> IsPrefix(files[target] + ImportDivider, r)
    ensures IsSuffix(content, r)
    ensures target in files ==> r[|files[target] + ImportDivider|..] == content
    ensures target !in files ==> r == content
  {
    var r := if target in files then files[target] + ImportDivider + content else content;
    assert target in files ==> r[..|files[target] + ImportDivider|] == files[target] + ImportDivider;
    assert r[|r| - |content|..] == content;
    r
  }

  function NotFound(date: string, src: Sources): string {
    "No log found for " + date + " at " + src.file + " or " + src.dir + "/README.md"
  }

  function Imported(date: string, content: string): string {
    "Imported log for " + date + " (" + NatToString(Utf8Len(content)) + " bytes)"
  }

  /** ImportDailyOpsTool::execute: every answer is a text for the model; only an import writes. */
  function Import(files: Files, args: Json, home: Option<string>, external: map<string, string>): (r: Outcome)
    ensures var date := StrArg(args, "date", "");
      && (date == "" ==> r == Outcome(files, Ok(ForLlm(DateRequired))))
      && (date != "" && |Split(date, '-')| != 3 ==> r == Outcome(files, Ok(ForLlm(DateFormat))))
      && r.result.Ok? && r.result.value.forUser.None?
      && files.Keys <= r.files.Keys <= files.Keys + {DailyPath(date)}
      && (forall p :: p in files && p != DailyPath(date) ==> r.files[p] == files[p])
  {
    var date := StrArg(args, "date", "");
    if date == "" then Outcome(files, Ok(ForLlm(DateRequired)))
    else
      var parts := Split(date, '-');
      if |parts| != 3 then Outcome(files, Ok(ForLlm(DateFormat)))
      else
        var src := SourcePaths(home.GetOr(""), parts[0], parts[1], parts[2]);
        match SourceContent(external, src)
        case None => Outcome(files, Ok(ForLlm(NotFound(date, src))))
        case Some(content) =>
          var target := DailyPath(date);
          Outcome(files[target := Merged(files, target, content)], Ok(ForLlm(Imported(date, content))))
  }

  /**
   * A well-formed request whose log is found writes the daily log of that
   * date, keeping what it held in front of the divider, and reports the
   * imported size in bytes; one whose log is not found writes nothing.
   */
  lemma ImportWrites(files: Files, args: Json, home: Option<string>, external: map<string, string>)
    requires var date := StrArg(args, "date", ""); date != "" && |Split(date, '-')| == 3
    ensures var date := StrArg(args, "date", "");
      var parts := Split(date, '-');
      var src := SourcePaths(home.GetOr(""), parts[0], parts[1], parts[2]);
      var r := Import(files, args, home, external);
      match SourceContent(external, src)
      case None => r == Outcome(files, Ok(ForLlm(NotFound(date, src))))
      case Some(content) =>
        && r.files == files[DailyPath(date) := Merged(files, DailyPath(date), content)]
        && r.result == Ok(ForLlm(Imported(date, content)))
  {
  }

  /** The format check only counts dashes: it passes exactly when the date holds two of them. */
  lemma FormatCheckCountsDashes(date: string)
    ensures |Split(date, '-')| == 3 <==> Count(date, '-') == 2
  {
    SplitCount(date, '-');
  }

  /**
   * The date is not validated as a calendar date: any three dash-free parts
   * pass, including a day holding '/': "2026-01-../../../../core/user"
   * names logs/daily/2026-01-../../../../core/user.md, which resolves to
   * core/user.md (the first ".." only undoes the "2026-01-.." component).
   * The memory store's own date check refuses such a date.
   */
  lemma TraversalDateAccepted(year: string, month: string, day: string, k: nat)
    requires '-' !in year && '-' !in month && '-' !in day
    requires k < |day| && day[k] == '/'
    ensures var date := year + "-" + month + "-" + day;
      && Split(date, '-') == [year, month, day]
      && Memory.ValidateDate(date).Err?
  {
    var date := year + "-" + month + "-" + day;
    ThreeParts(year, month, day);
    assert date[|year| + |month| + 2 + k] == '/';
    if Memory.ValidateDate(date).Ok? {
      Memory.DateIdSafe(date);
    }
  }

  /** Three dash-free parts joined by dashes split back into themselves. */
  lemma ThreeParts(year: string, month: string, day: string)
    requires '-' !in year && '-' !in month && '-' !in day
    ensures Split(year + "-" + month + "-" + day, '-') == [year, month, day]
  {
    var rest := month + "-" + day;
    assert year + "-" + month + "-" + day == year + ['-'] + rest;
    SplitCons(year, rest, '-');
    assert rest == month + ['-'] + day;
    SplitCons(month, day, '-');
    assert IndexOf(day, '-') == |day|;
  }

  method ImportDailyOps(args: Json, ctx: ToolContext) returns (r: Result<ToolResult, string>)
    modifies ctx.memory
    ensures Outcome(ctx.memory.files, r) == Import(old(ctx.memory.files), args, ctx.home, ctx.external)
  {
    var date := StrArg(args, "date", "");
    if date == "" {
      return Ok(ForLlm(DateRequired));
    }
    var parts := Split(date, '-');
    if |parts| != 3 {
      return Ok(ForLlm(DateFormat));
    }
    var src := SourcePaths(home := ctx.home.GetOr(""), year := parts[0], month := parts[1], day := parts[2]);
    var content: string;
    if src.file in ctx.external {
      content := ctx.external[src.file];
    } else if PathJoin(src.dir, "README.md") in ctx.external {
      content := ctx.external[PathJoin(src.dir, "README.md")];
    } else {
      return Ok(ForLlm(NotFound(date, src)));
    }
    var target := DailyPath(date);
    var files := ctx.memory.files;
    if target in files {
      ctx.memory.files := files[target := files[target] + ImportDivider + content];
    } else {
      ctx.memory.files := files[target := content];
    }
    r := Ok(ForLlm(Imported(date, content)));
  }
}
