/**
 * The memory directory as the file system shows it to both revisions of the
 * memory store: a map from paths relative to the base directory
 * ("core/state.md", "logs/daily/2026-02-17.md", ...) to file contents, the
 * paths the store derives, directory listings sorted by file name, the
 * append-with-header rule of the daily log and the specification of the
 * daily-log search.
 */
module Store {
  import opened Wrappers
  import opened Text

  /** The memory directory: relative path to contents. */
  type Files = map<string, string>


  const DailyDir: string := "logs/daily/"
  const WeeklyDir: string := "logs/weekly/"
  const MonthlyDir: string := "logs/monthly/"

  function CorePath(filename: string): string {
    "core/" + filename
  }

  /** `logs/daily/{date}.md`: the date sits between the directory and the ".md" suffix. */
  function DailyPath(date: string): (r: string)
    ensures IsPrefix(DailyDir, r) && IsSuffix(".md", r)
    ensures |r| == |DailyDir| + |date| + 3 && r[|DailyDir|..|r| - 3] == date
  {
    DailyDir + date + ".md"
  }

  function WeeklyPath(id: string): string {
    WeeklyDir + id + ".md"
  }

  function MonthlyPath(id: string): string {
    MonthlyDir + id + ".md"
  }

  /** `if path.exists() { Some(read_to_string(path)) } else { None }`. */
  function Lookup(files: Files, path: string): (r: Option<string>)
    ensures r.Some? <==> path in files
    ensures r.Some? ==> r.value == files[path]
  {
    if path in files then Some(files[path]) else None
  }

  /** Different ids give different summary and log paths. */
  lemma PathsInjective(a: string, b: string)
    requires a != b
    ensures DailyPath(a) != DailyPath(b) && WeeklyPath(a) != WeeklyPath(b) && MonthlyPath(a) != MonthlyPath(b)
  {
    assert DailyPath(a)[|DailyDir|..|DailyPath(a)| - 3] == a;
    assert DailyPath(b)[|DailyDir|..|DailyPath(b)| - 3] == b;
    assert WeeklyPath(a)[|WeeklyDir|..|WeeklyPath(a)| - 3] == a;
    assert WeeklyPath(b)[|WeeklyDir|..|WeeklyPath(b)| - 3] == b;
    assert MonthlyPath(a)[|MonthlyDir|..|MonthlyPath(a)| - 3] == a;
    assert MonthlyPath(b)[|MonthlyDir|..|MonthlyPath(b)| - 3] == b;
  }


  /** Weekly and monthly summaries live in different directories, so their paths never coincide. */
  lemma SummaryNamespacesDisjoint(a: string, b: string)
    ensures WeeklyPath(a) != MonthlyPath(b)
  {
    assert WeeklyPath(a)[5] == 'w' && MonthlyPath(b)[5] == 'm';
  }

  // ============================================================ daily logs

  /** The header a new daily log starts with (`writeln!(file, "# {today}\n")`). */
  function LogHeader(today: string): string {
    "# " + today + "\n\n"
  }

  /** The contents of today's log after append_log. */
  function AppendedLog(files: Files, today: string, entry: string): (r: string)
    ensures var prev := if DailyPath(today) in files then files[DailyPath(today)] else "";
      && (prev == "" ==> r == "# " + today + "\n\n- " + entry + "\n")
      && (prev != "" ==> IsPrefix(prev, r) && r[|prev|..] == "- " + entry + "\n")
    ensures IsSuffix("- " + entry + "\n", r)
  {
    var prev := if DailyPath(today) in files then files[DailyPath(today)] else "";
    var start := if prev == "" then LogHeader(today) else prev;
    var r := start + "- " + entry + "\n";
    assert r == start + ("- " + entry + "\n");
    assert r[|r| - |"- " + entry + "\n"|..] == "- " + entry + "\n";
    r
  }

  /** append_log: only today's log changes. */
  function AppendLogTo(files: Files, today: string, entry: string): (r: Files)
    ensures r.Keys == files.Keys + {DailyPath(today)}
    ensures forall p :: p in files && p != DailyPath(today) ==> r[p] == files[p]
    ensures r[DailyPath(today)] == AppendedLog(files, today, entry)
  {
    files[DailyPath(today) := AppendedLog(files, today, entry)]
  }

  // ----------------------------------------------------------- search

  /** The names directly inside `dir` (a directory listing). */
  function DirEntries(files: Files, dir: string): set<string> {
    set p | p in files && IsPrefix(dir, p) && '/' !in p[|dir|..] :: p[|dir|..]
  }

  /** `read_dir` followed by `sort_by_key(file_name)`. */
  function Listing(files: Files, dir: string): (r: seq<string>)
    ensures StrictlySorted(r)
    ensures forall n :: n in r <==> n in DirEntries(files, dir)
    ensures forall n :: n in r ==> dir + n in files
  {
    var r := SortedSet(DirEntries(files, dir));
    assert forall n :: n in r ==> dir + n in files by {
      forall n | n in r ensures dir + n in files {
        var p :| p in files && IsPrefix(dir, p) && '/' !in p[|dir|..] && n == p[|dir|..];
        assert p == dir + n;
      }
    }
    r
  }

  /** One search hit: `format!("[{date}] {line}")`. */
  function Hit(stem: string, line: string): string {
    "[" + stem + "] " + line
  }

  /** Case-insensitive substring test of the search. */
  predicate Matches(line: string, query: string) {
    Contains(ToLower(line), ToLower(query))
  }

  /** Hits of one file's lines, in line order. */
  function LineHits(stem: string, lines: seq<string>, query: string): seq<string>
    decreases |lines|
  {
    if lines == [] then []
    else
      var last := lines[|lines| - 1];
      LineHits(stem, lines[..|lines| - 1], query) + (if Matches(last, query) then [Hit(stem, last)] else [])
  }

  /** Hits of one directory entry: none unless its extension is "md". */
  function FileHits(files: Files, dir: string, name: string, query: string): seq<string> {
    if Extension(name) == Some("md") && dir + name in files
    then LineHits(FileStem(name), Lines(files[dir + name]), query)
    else []
  }

  /** Hits of the listed entries, in listing order. */
  function HitsIn(files: Files, dir: string, names: seq<string>, query: string): seq<string>
    decreases |names|
  {
    if names == [] then []
    else HitsIn(files, dir, names[..|names| - 1], query) + FileHits(files, dir, names[|names| - 1], query)
  }

  /** search_logs: every matching line of every daily .md file, by file name and then line. */
  function SearchHits(files: Files, query: string): seq<string> {
    HitsIn(files, DailyDir, Listing(files, DailyDir), query)
  }

  lemma {:induction false} LineHitsSound(stem: string, lines: seq<string>, query: string, h: string)
    requires h in LineHits(stem, lines, query)
    ensures exists line :: line in lines && Matches(line, query) && h == Hit(stem, line)
    decreases |lines|
  {
    var last := lines[|lines| - 1];
    if h in LineHits(stem, lines[..|lines| - 1], query) {
      LineHitsSound(stem, lines[..|lines| - 1], query, h);
      var line :| line in lines[..|lines| - 1] && Matches(line, query) && h == Hit(stem, line);
      assert line in lines;
    } else {
      assert last in lines;
    }
  }

  lemma {:induction false} LineHitsComplete(stem: string, lines: seq<string>, query: string, line: string)
    requires line in lines && Matches(line, query)
    ensures Hit(stem, line) in LineHits(stem, lines, query)
    decreases |lines|
  {
    if line != lines[|lines| - 1] {
      assert line in lines[..|lines| - 1] by {
        var k :| 0 <= k < |lines| && lines[k] == line;
        assert lines[..|lines| - 1][k] == line;
      }
      LineHitsComplete(stem, lines[..|lines| - 1], query, line);
    }
  }

  lemma HitsInStep(files: Files, dir: string, names: seq<string>, i: nat, query: string)
    requires i < |names|
    ensures HitsIn(files, dir, names[..i + 1], query) == HitsIn(files, dir, names[..i], query) + FileHits(files, dir, names[i], query)
  {
    assert names[..i + 1][..i] == names[..i];
  }

  lemma LineHitsStep(stem: string, lines: seq<string>, j: nat, query: string)
    requires j < |lines|
    ensures LineHits(stem, lines[..j + 1], query)
      == LineHits(stem, lines[..j], query) + (if Matches(lines[j], query) then [Hit(stem, lines[j])] else [])
  {
    assert lines[..j + 1][..j] == lines[..j];
  }

  /** The inner loop of search_logs: the hits of one file's lines, in order. */
  method MatchingLines(stem: string, lines: seq<string>, query: string) returns (hits: seq<string>)
    ensures hits == LineHits(stem, lines, query)
  {
    hits := [];
    var j := 0;
    while j < |lines|
      invariant 0 <= j <= |lines|
      invariant hits == LineHits(stem, lines[..j], query)
    {
      LineHitsStep(stem, lines, j, query);
      if Matches(lines[j], query) {
        hits := hits + [Hit(stem, lines[j])];
      }
      j := j + 1;
    }
    assert lines[..j] == lines;
  }

  /** One listed entry of search_logs: a .md file's matching lines, nothing for any other entry. */
  method EntryHits(files: Files, dir: string, name: string, query: string) returns (hits: seq<string>)
    ensures hits == FileHits(files, dir, name, query)
  {
    if Extension(name) == Some("md") && dir + name in files {
      hits := MatchingLines(FileStem(name), Lines(files[dir + name]), query);
    } else {
      hits := [];
    }
  }

  /** The outer loop of search_logs: each listed entry in turn. */
  method EntriesHits(files: Files, dir: string, names: seq<string>, query: string) returns (results: seq<string>)
    ensures results == HitsIn(files, dir, names, query)
  {
    results := [];
    var i := 0;
    while i < |names|
      invariant 0 <= i <= |names|
      invariant results == HitsIn(files, dir, names[..i], query)
    {
      HitsInStep(files, dir, names, i, query);
      var hits := EntryHits(files, dir, names[i], query);
      results := results + hits;
      i := i + 1;
    }
    assert names[..i] == names;
  }

  /** search_logs over the sorted listing of logs/daily. */
  method SearchDailyLogs(files: Files, query: string) returns (results: seq<string>)
    ensures results == SearchHits(files, query)
  {
    results := EntriesHits(files, DailyDir, Listing(files, DailyDir), query);
  }

  /** The file a hit came from and the matching line it reports. */
  ghost predicate HitFrom(files: Files, dir: string, names: seq<string>, query: string, h: string) {
    exists name, line ::
      && name in names && Extension(name) == Some("md") && dir + name in files
      && line in Lines(files[dir + name]) && Matches(line, query)
      && h == Hit(FileStem(name), line)
  }

  lemma {:induction false} HitsInSound(files: Files, dir: string, names: seq<string>, query: string, h: string)
    requires h in HitsIn(files, dir, names, query)
    ensures HitFrom(files, dir, names, query, h)
    decreases |names|
  {
    var init, name := names[..|names| - 1], names[|names| - 1];
    if h in HitsIn(files, dir, init, query) {
      HitsInSound(files, dir, init, query, h);
      var n, line :| n in init && Extension(n) == Some("md") && dir + n in files
        && line in Lines(files[dir + n]) && Matches(line, query) && h == Hit(FileStem(n), line);
      assert n in names;
    } else {
      LineHitsSound(FileStem(name), Lines(files[dir + name]), query, h);
      var line :| line in Lines(files[dir + name]) && Matches(line, query) && h == Hit(FileStem(name), line);
      assert name in names;
    }
  }

  lemma {:induction false} HitsInComplete(files: Files, dir: string, names: seq<string>, query: string, name: string, line: string)
    requires name in names && Extension(name) == Some("md") && dir + name in files
    requires line in Lines(files[dir + name]) && Matches(line, query)
    ensures Hit(FileStem(name), line) in HitsIn(files, dir, names, query)
    decreases |names|
  {
    if name == names[|names| - 1] {
      LineHitsComplete(FileStem(name), Lines(files[dir + name]), query, line);
    } else {
      assert name in names[..|names| - 1] by {
        var k :| 0 <= k < |names| && names[k] == name;
        assert names[..|names| - 1][k] == name;
      }
      HitsInComplete(files, dir, names[..|names| - 1], query, name, line);
    }
  }

  /**
   * A string is a search hit exactly when it is "[stem] line" for a matching
   * line of a daily .md file; the files are visited in strictly increasing name order.
   */
  lemma SearchHitsExactly(files: Files, query: string, h: string)
    ensures h in SearchHits(files, query) <==> HitFrom(files, DailyDir, Listing(files, DailyDir), query, h)
    ensures StrictlySorted(Listing(files, DailyDir))
  {
    if h in SearchHits(files, query) {
      HitsInSound(files, DailyDir, Listing(files, DailyDir), query, h);
    }
    if HitFrom(files, DailyDir, Listing(files, DailyDir), query, h) {
      var name, line :| name in Listing(files, DailyDir) && Extension(name) == Some("md") && DailyDir + name in files
        && line in Lines(files[DailyDir + name]) && Matches(line, query) && h == Hit(FileStem(name), line);
      HitsInComplete(files, DailyDir, Listing(files, DailyDir), query, name, line);
    }
  }

  /** The empty query matches every line of every daily .md file. */
  lemma EmptyQueryMatchesEveryLine(files: Files, name: string, line: string)
    requires DailyDir + name in files && '/' !in name && Extension(name) == Some("md")
    requires line in Lines(files[DailyDir + name])
    ensures Hit(FileStem(name), line) in SearchHits(files, "")
  {
    assert (DailyDir + name)[|DailyDir|..] == name;
    assert name in DirEntries(files, DailyDir);
    EmptyIsContained(ToLower(line));
    assert ToLower("") == "";
    HitsInComplete(files, DailyDir, Listing(files, DailyDir), "", name, line);
  }

  /** Without a daily-log directory there are no hits. */
  lemma NoDailyDirNoHits(files: Files, query: string)
    requires forall p :: p in files ==> !IsPrefix(DailyDir, p)
    ensures SearchHits(files, query) == []
  {
    assert DirEntries(files, DailyDir) == {};
  }
}
