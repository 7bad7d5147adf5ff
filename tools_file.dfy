/**
 * The read_file tool (src/tools/file.rs): a path relative to the memory
 * directory (or absolute) is resolved, checked to lie inside the resolved
 * memory directory, and only then read. Path resolution and file reading are
 * parameters: `canonicalize` gives the resolved path or the error text, and
 * `readFile` the contents or the error text.
 */
module FileTool {
  import opened Wrappers
  import opened Text
  import opened Json
  import opened ToolBase

  const MissingPath: string := "Missing required 'path' parameter"

  /** The path to resolve: an absolute path as given, a relative one under the base directory. */
  function RequestedPath(baseDir: string, p: string): (r: string)
    ensures |p| > 0 && p[0] == '/' ==> r == p
    ensures !(|p| > 0 && p[0] == '/') ==> r == PathJoin(baseDir, p)
  {
    if IsPrefix("/", p) then p else PathJoin(baseDir, p)
  }

  /** The resolved path the tool reads, if the request gets that far. */
  function ReadTarget(args: Json, baseDir: string, canonicalize: string -> Result<string, string>): Option<string> {
    match AsStr(Get(args, "path"))
    case None => None
    case Some(p) =>
      match canonicalize(RequestedPath(baseDir, p))
      case Err(_) => None
      case Ok(canonical) =>
        match canonicalize(baseDir)
        case Err(_) => None
        case Ok(base) => if PathStartsWith(canonical, base) then Some(canonical) else None
  }

  /** ReadFileTool::execute. */
  function ReadFile(args: Json, baseDir: string, canonicalize: string -> Result<string, string>,
                    readFile: string -> Result<string, string>): (r: Result<ToolResult, string>)
    ensures !Get(args, "path").Str? ==> r == Err(MissingPath)
    ensures Get(args, "path").Str? ==> r.Ok?
    ensures ReadTarget(args, baseDir, canonicalize).Some? ==>
      var c := ReadTarget(args, baseDir, canonicalize).value;
      var path := RequestedPath(baseDir, Get(args, "path").s);
      r == Ok(ForLlm(match readFile(c) case Ok(s) => s case Err(e) => "Error reading " + path + ": " + e))
  {
    match AsStr(Get(args, "path"))
    case None => Err(MissingPath)
    case Some(p) =>
      var path := RequestedPath(baseDir, p);
      match canonicalize(path)
      case Err(e) => Ok(ForLlm("Error: cannot resolve path: " + e))
      case Ok(canonical) =>
        match canonicalize(baseDir)
        case Err(e) => Ok(ForLlm("Error: cannot resolve base dir: " + e))
        case Ok(base) =>
          if !PathStartsWith(canonical, base) then Ok(ForLlm("Error: path outside memory directory: " + path))
          else
            match readFile(canonical)
            case Ok(content) => Ok(ForLlm(content))
            case Err(e) => Ok(ForLlm("Error reading " + path + ": " + e))
  }

  /** Whatever is read lies, component by component, inside the resolved memory directory. */
  lemma ReadTargetInsideBase(args: Json, baseDir: string, canonicalize: string -> Result<string, string>)
    requires ReadTarget(args, baseDir, canonicalize).Some?
    ensures canonicalize(baseDir).Ok?
    ensures PathStartsWith(ReadTarget(args, baseDir, canonicalize).value, canonicalize(baseDir).value)
    ensures canonicalize(RequestedPath(baseDir, Get(args, "path").s)) == Ok(ReadTarget(args, baseDir, canonicalize).value)
  {
  }

  /**
   * When the request does not resolve to a path inside the memory directory
   * no file is read: the answer is the same whatever the file system holds.
   */
  lemma OutsideNeverRead(args: Json, baseDir: string, canonicalize: string -> Result<string, string>,
                         read1: string -> Result<string, string>, read2: string -> Result<string, string>)
    requires ReadTarget(args, baseDir, canonicalize).None?
    ensures ReadFile(args, baseDir, canonicalize, read1) == ReadFile(args, baseDir, canonicalize, read2)
  {
  }

  /** A resolved path outside the resolved base is refused in the answer, naming the requested path. */
  lemma OutsideRefused(args: Json, baseDir: string, canonicalize: string -> Result<string, string>,
                       readFile: string -> Result<string, string>)
    requires Get(args, "path").Str?
    requires var path := RequestedPath(baseDir, Get(args, "path").s);
      canonicalize(path).Ok? && canonicalize(baseDir).Ok?
      && !PathStartsWith(canonicalize(path).value, canonicalize(baseDir).value)
    ensures ReadFile(args, baseDir, canonicalize, readFile)
      == Ok(ForLlm("Error: path outside memory directory: " + RequestedPath(baseDir, Get(args, "path").s)))
  {
  }
}
