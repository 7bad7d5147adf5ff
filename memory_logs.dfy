/**
 * Daily logs of the unvalidated store (src/memory/logs.rs): append_log reads
 * today's log, starts it with a header when it is empty, adds the entry and
 * writes the whole file back; search_logs is the line search of module Store.
 */
module MemoryLogs {
  import opened Wrappers
  import opened Text
  import opened Store
  import MemoryFiles

  /** append_log with the local date passed in as `today`: read, extend, overwrite. */
  method AppendLog(m: MemoryFiles.MemoryManager, today: string, entry: string)
    modifies m
    ensures m.files == AppendLogTo(old(m.files), today, entry)
  {
    var path := DailyPath(today);
    var content := if path in m.files then m.files[path] else "";
    if content == "" {
      content := LogHeader(today);
    }
    content := content + "- " + entry + "\n";
    m.files := m.files[path := content];
  }

  /** search_logs: the nested loops over the sorted listing and each file's lines. */
  method SearchLogs(m: MemoryFiles.MemoryManager, query: string) returns (results: seq<string>)
    ensures results == SearchHits(m.files, query)
  {
    results := SearchDailyLogs(m.files, query);
  }
}
