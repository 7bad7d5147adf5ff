/**
 * Weekly and monthly summaries of the unvalidated store
 * (src/memory/summary.rs): `logs/weekly/{id}.md` and `logs/monthly/{id}.md`,
 * read as optional contents and overwritten by the writers.
 */
module MemorySummary {
  import opened Wrappers
  import opened Store
  import MemoryFiles

  function ReadWeeklySummary(m: MemoryFiles.MemoryManager, id: string): (r: Option<string>)
    reads m
    ensures r.Some? <==> WeeklyPath(id) in m.files
    ensures r.Some? ==> r.value == m.files[WeeklyPath(id)]
  {
    Lookup(m.files, WeeklyPath(id))
  }

  function ReadMonthlySummary(m: MemoryFiles.MemoryManager, id: string): (r: Option<string>)
    reads m
    ensures r.Some? <==> MonthlyPath(id) in m.files
    ensures r.Some? ==> r.value == m.files[MonthlyPath(id)]
  {
    Lookup(m.files, MonthlyPath(id))
  }

  /** Overwrites one week: it reads back, other weeks and every month read as before. */
  method WriteWeeklySummary(m: MemoryFiles.MemoryManager, id: string, content: string)
    modifies m
    ensures m.files == old(m.files)[WeeklyPath(id) := content]
    ensures ReadWeeklySummary(m, id) == Some(content)
    ensures forall other :: other != id ==> ReadWeeklySummary(m, other) == old(ReadWeeklySummary(m, other))
    ensures forall month :: ReadMonthlySummary(m, month) == old(ReadMonthlySummary(m, month))
  {
    m.files := m.files[WeeklyPath(id) := content];
    forall other | other != id ensures WeeklyPath(other) != WeeklyPath(id) {
      PathsInjective(other, id);
    }
    forall month ensures MonthlyPath(month) != WeeklyPath(id) {
      SummaryNamespacesDisjoint(id, month);
    }
  }

  /** Overwrites one month: it reads back, other months and every week read as before. */
  method WriteMonthlySummary(m: MemoryFiles.MemoryManager, id: string, content: string)
    modifies m
    ensures m.files == old(m.files)[MonthlyPath(id) := content]
    ensures ReadMonthlySummary(m, id) == Some(content)
    ensures forall other :: other != id ==> ReadMonthlySummary(m, other) == old(ReadMonthlySummary(m, other))
    ensures forall week :: ReadWeeklySummary(m, week) == old(ReadWeeklySummary(m, week))
  {
    m.files := m.files[MonthlyPath(id) := content];
    forall other | other != id ensures MonthlyPath(other) != MonthlyPath(id) {
      PathsInjective(other, id);
    }
    forall week ensures WeeklyPath(week) != MonthlyPath(id) {
      SummaryNamespacesDisjoint(week, id);
    }
  }

  /** The two namespaces are independent: a weekly write never changes what a monthly read returns, and back. */
  lemma NamespacesIndependent(files: Files, week: string, month: string, content: string)
    ensures Lookup(files[WeeklyPath(week) := content], MonthlyPath(month)) == Lookup(files, MonthlyPath(month))
    ensures Lookup(files[MonthlyPath(month) := content], WeeklyPath(week)) == Lookup(files, WeeklyPath(week))
  {
    SummaryNamespacesDisjoint(week, month);
  }
}
