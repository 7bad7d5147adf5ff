/**
 * The unvalidated revision of the memory store (src/memory/mod.rs): core
 * files are read and written under whatever name the caller passes, the
 * daily log of a date is looked up without checking the date, daily logs are
 * selected by an inclusive range of file stems, and heartbeat.md is optional.
 */
module MemoryFiles {
  import opened Wrappers
  import opened Text
  import opened Store

  /** `base_dir.join("core").join(filename)`, relative to the base directory. */
  function CoreKey(filename: string): (r: string)
    ensures filename != [] && filename[0] == '/' ==> r == filename
    ensures (filename == [] || filename[0] != '/') ==> r == "core/" + filename
  {
    PathJoin("core", filename)
  }

  /**
   * Without validation, a core file name is any path: "identity.md" is writable,
   * and an absolute name leaves the core directory altogether.
   */
  lemma CoreNamesUnchecked()
    ensures CoreKey("identity.md") == "core/identity.md"
    ensures CoreKey("/etc/passwd") == "/etc/passwd" && !IsPrefix("core/", CoreKey("/etc/passwd"))
  {
  }

  /** The entry `name` is a daily .md file whose stem lies in [start, end]. */
  predicate InRange(files: Files, name: string, start: string, end: string) {
    && Extension(name) == Some("md") && DailyDir + name in files
    && LexLe(start, FileStem(name)) && LexLe(FileStem(name), end)
  }

  /** One `(date, content)` pair of read_daily_logs_range for the entry `name`, if it qualifies. */
  function RangeEntry(files: Files, name: string, start: string, end: string): seq<(string, string)> {
    if InRange(files, name, start, end) then [(FileStem(name), files[DailyDir + name])] else []
  }

  /** The pairs of the listed entries, in listing order. */
  function RangeIn(files: Files, names: seq<string>, start: string, end: string): seq<(string, string)>
    decreases |names|
  {
    if names == [] then []
    else RangeIn(files, names[..|names| - 1], start, end) + RangeEntry(files, names[|names| - 1], start, end)
  }

  /** read_daily_logs_range: every daily .md file whose stem lies in [start, end], by file name. */
  function LogsInRange(files: Files, start: string, end: string): seq<(string, string)> {
    RangeIn(files, Listing(files, DailyDir), start, end)
  }

  lemma RangeInStep(files: Files, names: seq<string>, i: nat, start: string, end: string)
    requires i < |names|
    ensures RangeIn(files, names[..i + 1], start, end) == RangeIn(files, names[..i], start, end) + RangeEntry(files, names[i], start, end)
  {
    assert names[..i + 1][..i] == names[..i];
  }

  /** The listed .md file a pair was read from. */
  ghost predicate PairFrom(files: Files, names: seq<string>, start: string, end: string, pair: (string, string)) {
    exists name :: name in names && InRange(files, name, start, end) && pair == (FileStem(name), files[DailyDir + name])
  }

  lemma {:induction false} RangeInExactly(files: Files, names: seq<string>, start: string, end: string, pair: (string, string))
    ensures pair in RangeIn(files, names, start, end) <==> PairFrom(files, names, start, end, pair)
    decreases |names|
  {
    if names != [] {
      var init, last := names[..|names| - 1], names[|names| - 1];
      RangeInExactly(files, init, start, end, pair);
      assert names == init + [last];
      if PairFrom(files, names, start, end, pair) {
        var name :| name in names && InRange(files, name, start, end) && pair == (FileStem(name), files[DailyDir + name]);
        if name != last {
          assert name in init;
        }
      }
      if PairFrom(files, init, start, end, pair) {
        var name :| name in init && InRange(files, name, start, end) && pair == (FileStem(name), files[DailyDir + name]);
        assert name in names;
      }
    }
  }

  /**
   * A pair is returned exactly when it is the stem and contents of a daily .md
   * file with start <= stem <= end (byte-wise, inclusive at both ends).
   */
  lemma LogsInRangeExactly(files: Files, start: string, end: string, pair: (string, string))
    ensures pair in LogsInRange(files, start, end) <==> PairFrom(files, Listing(files, DailyDir), start, end, pair)
  {
    RangeInExactly(files, Listing(files, DailyDir), start, end, pair);
  }

  /** A start after the end selects nothing. */
  lemma {:induction false} EmptyRangeSelectsNothing(files: Files, names: seq<string>, start: string, end: string)
    requires !LexLe(start, end)
    ensures RangeIn(files, names, start, end) == []
    decreases |names|
  {
    if names != [] {
      EmptyRangeSelectsNothing(files, names[..|names| - 1], start, end);
      var stem := FileStem(names[|names| - 1]);
      if LexLe(start, stem) && LexLe(stem, end) {
        LexLeTransitive(start, stem, end);
        assert false;
      }
    }
  }

  /** Without a daily-log directory the range is empty. */
  lemma NoDailyDirEmptyRange(files: Files, start: string, end: string)
    requires forall p :: p in files ==> !IsPrefix(DailyDir, p)
    ensures LogsInRange(files, start, end) == []
  {
    assert DirEntries(files, DailyDir) == {};
  }

  /** `MemoryManager` of this revision: the memory directory it reads and changes. */
  class MemoryManager {
    var files: Files

    constructor (files: Files)
      ensures this.files == files
    {
      this.files := files;
    }

    function ReadCore(filename: string): (r: Result<string, string>)
      reads this
      ensures r.Ok? <==> CoreKey(filename) in files
      ensures r.Ok? ==> r.value == files[CoreKey(filename)]
      ensures r.Err? ==> r.error == "Failed to read core memory: " + CoreKey(filename)
    {
      if CoreKey(filename) in files then Ok(files[CoreKey(filename)])
      else Err("Failed to read core memory: " + CoreKey(filename))
    }

    /** write_core: any name is accepted; reading it back gives the content, other names read as before. */
    method WriteCore(filename: string, content: string)
      modifies this
      ensures files == old(files)[CoreKey(filename) := content]
      ensures ReadCore(filename) == Ok(content)
      ensures forall g :: CoreKey(g) != CoreKey(filename) ==> ReadCore(g) == old(ReadCore(g))
    {
      files := files[CoreKey(filename) := content];
    }

    function ReadDailyLog(date: string): (r: Option<string>)
      reads this
      ensures r.Some? <==> DailyPath(date) in files
      ensures r.Some? ==> r.value == files[DailyPath(date)]
    {
      Lookup(files, DailyPath(date))
    }

    /** read_daily_logs_range: the loop over the sorted listing. */
    method ReadDailyLogsRange(start: string, end: string) returns (results: seq<(string, string)>)
      ensures results == LogsInRange(files, start, end)
    {
      var entries := Listing(files, DailyDir);
      results := [];
      var i := 0;
      while i < |entries|
        invariant 0 <= i <= |entries|
        invariant results == RangeIn(files, entries[..i], start, end)
      {
        RangeInStep(files, entries, i, start, end);
        var name := entries[i];
        if Extension(name) == Some("md") {
          var date := FileStem(name);
          if LexLe(start, date) && LexLe(date, end) {
            results := results + [(date, files[DailyDir + name])];
          }
        }
        i := i + 1;
      }
      assert entries[..i] == entries;
    }

    function ReadHeartbeat(): (r: Option<string>)
      reads this
      ensures r.Some? <==> "heartbeat.md" in files
      ensures r.Some? ==> r.value == files["heartbeat.md"]
    {
      Lookup(files, "heartbeat.md")
    }
  }
}
